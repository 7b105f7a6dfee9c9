/** The prompt `generate_course` builds before it calls the model
    (app.py:124-179): a fixed persona, a fixed ordered list of
    instructions, the topic, and one bulleted line per search result. */
module Prompt {
  import opened Text
  import opened Providers
  import opened Wording

  /** `f"- {instruction}"` for every instruction, in order. */
  function Bulleted(items: seq<string>): (b: seq<string>)
    ensures |b| == |items|
    ensures forall i :: 0 <= i < |b| ==> b[i] == "- " + items[i]
  {
    seq(|items|, i requires 0 <= i < |items| => "- " + items[i])
  }

  /** A persona line, then the bulleted instructions joined by line
      breaks (app.py:176). */
  function HeaderOf(description: string, instructions: seq<string>): string {
    description + "\n\nInstructions:\n" + JoinLines(Bulleted(instructions))
  }

  /** The fixed text every prompt starts with. */
  function Header(): string {
    HeaderOf(Description, Instructions)
  }

  /** The topic block of app.py:177. */
  function TopicBlock(topic: string): string {
    "\n\nTopic: " + topic + "\n\nSearch Results:\n"
  }

  /** The prompt that follows a given header: the topic block, then the
      result lines (app.py:177-179). Most lemmas below hold for any header;
      the source's prompt is `PromptFrom(Header(), ...)`. */
  function PromptFrom(header: string, topic: string, results: seq<SearchResult>): string {
    header + TopicBlock(topic) + ResultLines(results)
  }

  /** One result's line without its line break: `- title: url`. */
  function Entry(r: SearchResult): string {
    "- " + r.title + ": " + r.url
  }

  /** The lines appended by the loop (app.py:178-179), in input order. */
  function ResultLines(results: seq<SearchResult>): string {
    if results == [] then []
    else ResultLines(results[..|results| - 1]) + Entry(results[|results| - 1]) + "\n"
  }

  /** The whole prompt for a topic and its search results. */
  function PromptText(topic: string, results: seq<SearchResult>): string {
    PromptFrom(Header(), topic, results)
  }

  lemma ResultLinesStep(results: seq<SearchResult>, i: nat)
    requires i < |results|
    ensures ResultLines(results[..i + 1]) == ResultLines(results[..i]) + Entry(results[i]) + "\n"
  {
    assert results[..i + 1][..i] == results[..i];
  }

  /** The loop of app.py:178-179: one `- title: url` line appended per
      result, in input order. */
  method AppendResultLines(start: string, results: seq<SearchResult>) returns (prompt: string)
    ensures prompt == start + ResultLines(results)
  {
    prompt := start;
    var i := 0;
    while i < |results|
      invariant 0 <= i <= |results|
      invariant prompt == start + ResultLines(results[..i])
    {
      ResultLinesStep(results, i);
      prompt := prompt + "- " + results[i].title + ": " + results[i].url + "\n";
      i := i + 1;
    }
    assert results[..i] == results;
  }

  /** The prompt built as the source builds it: the header expression, the
      topic block, then the loop. */
  method BuildPrompt(topic: string, results: seq<SearchResult>) returns (prompt: string)
    ensures prompt == PromptText(topic, results)
  {
    prompt := Description + "\n\nInstructions:\n" + JoinLines(Bulleted(Instructions));
    prompt := prompt + "\n\nTopic: " + topic + "\n\nSearch Results:\n";
    assert prompt == Header() + TopicBlock(topic);
    prompt := AppendResultLines(prompt, results);
  }

  /** `needle` occurs in `text` starting at position `k`. */
  predicate OccursAt(needle: string, text: string, k: int) {
    0 <= k && k + |needle| <= |text| && text[k..k + |needle|] == needle
  }

  /** Where result `i`'s line starts in the prompt that follows `header`. */
  function ResultOffset(header: string, topic: string, results: seq<SearchResult>, i: nat): nat
    requires i <= |results|
  {
    |header| + |TopicBlock(topic)| + |ResultLines(results[..i])|
  }

  lemma PieceAt(a: string, b: string, c: string)
    ensures OccursAt(b, a + b + c, |a|)
  {
    assert (a + b + c)[|a|..|a| + |b|] == b;
  }

  lemma OccursWithin(needle: string, middle: string, text: string, m: int, k: int)
    requires OccursAt(needle, middle, m) && OccursAt(middle, text, k)
    ensures OccursAt(needle, text, k + m)
  {
    forall j | 0 <= j < |needle| ensures text[k + m + j] == needle[j] {
      assert middle[m..m + |needle|][j] == needle[j];
      assert text[k..k + |middle|][m + j] == middle[m + j];
    }
    assert text[k + m..k + m + |needle|] == needle;
  }

  lemma {:induction false} ResultLinesAppend(a: seq<SearchResult>, b: seq<SearchResult>)
    ensures ResultLines(a + b) == ResultLines(a) + ResultLines(b)
  {
    if b != [] {
      var b' := b[..|b| - 1];
      assert (a + b)[..|a + b| - 1] == a + b';
      assert (a + b)[|a + b| - 1] == b[|b| - 1];
      ResultLinesAppend(a, b');
    } else {
      assert a + b == a;
    }
  }

  /** Result `i`'s line, with its line break, sits at `ResultOffset(i)`, and
      the next result's line starts right after it: every result is listed,
      in input order, one line each. */
  lemma ResultLineAt(header: string, topic: string, results: seq<SearchResult>, i: nat)
    requires i < |results|
    ensures OccursAt(Entry(results[i]) + "\n", PromptFrom(header, topic, results),
                     ResultOffset(header, topic, results, i))
    ensures ResultOffset(header, topic, results, i + 1)
         == ResultOffset(header, topic, results, i) + |Entry(results[i])| + 1
  {
    var head, tail := results[..i], results[i + 1..];
    var e := Entry(results[i]) + "\n";
    assert results[..i + 1] == head + [results[i]];
    assert [results[i]][..0] == [];
    ResultLinesAppend(head, [results[i]]);
    assert results == results[..i + 1] + tail;
    ResultLinesAppend(results[..i + 1], tail);
    var before := header + TopicBlock(topic) + ResultLines(head);
    assert PromptFrom(header, topic, results) == before + e + ResultLines(tail);
    PieceAt(before, e, ResultLines(tail));
  }

  /** Every title and every URL of the search results appears in the prompt,
      at a known position inside its own line. */
  lemma ResultFieldsAppear(header: string, topic: string, results: seq<SearchResult>, i: nat)
    requires i < |results|
    ensures var p, k := PromptFrom(header, topic, results), ResultOffset(header, topic, results, i);
      OccursAt(results[i].title, p, k + 2) && OccursAt(results[i].url, p, k + 4 + |results[i].title|)
  {
    ResultLineAt(header, topic, results, i);
    var p, k := PromptFrom(header, topic, results), ResultOffset(header, topic, results, i);
    var t, u := results[i].title, results[i].url;
    var e := Entry(results[i]) + "\n";
    PieceAt("- ", t, ": " + u + "\n");
    assert e == "- " + t + (": " + u + "\n");
    OccursWithin(t, e, p, 2, k);
    PieceAt("- " + t + ": ", u, "\n");
    assert e == "- " + t + ": " + u + "\n";
    OccursWithin(u, e, p, 4 + |t|, k);
  }

  /** The topic follows the `Topic: ` label on a line of its own, right after
      the header and a blank line. */
  lemma TopicAppears(header: string, topic: string, results: seq<SearchResult>)
    ensures OccursAt("Topic: " + topic + "\n", PromptFrom(header, topic, results), |header| + 2)
  {
    var n := "Topic: " + topic + "\n";
    var rest := "\nSearch Results:\n" + ResultLines(results);
    assert TopicBlock(topic) == "\n\n" + n + "\nSearch Results:\n";
    assert PromptFrom(header, topic, results) == (header + "\n\n") + n + rest;
    PieceAt(header + "\n\n", n, rest);
  }

  /** The entries of the results, one per result, in order. */
  function Entries(results: seq<SearchResult>): (entries: seq<string>)
    ensures |entries| == |results|
    ensures forall i :: 0 <= i < |results| ==> entries[i] == Entry(results[i])
  {
    seq(|results|, i requires 0 <= i < |results| => Entry(results[i]))
  }

  /** The result lines are the entries joined by line breaks, with a final
      line break. */
  lemma {:induction false} ResultLinesJoin(results: seq<SearchResult>)
    ensures ResultLines(results) == JoinLines(Entries(results) + [""])
  {
    if results != [] {
      var front, last := results[..|results| - 1], results[|results| - 1];
      ResultLinesJoin(front);
      assert Entries(results) == Entries(front) + [Entry(last)];
      if front == [] {
        assert Entries(results) + [""] == [Entry(last), ""];
      } else {
        assert Entries(results) + [""] == Entries(front) + [Entry(last), ""];
        JoinAppend(Entries(front), [Entry(last), ""]);
        JoinAppend(Entries(front), [""]);
      }
    }
  }

  /** The lines of a prompt from the topic on. */
  function TailLines(topic: string, results: seq<SearchResult>): (lines: seq<string>)
    ensures |lines| == 5 + |results|
  {
    TopicLines(topic) + (Entries(results) + [""])
  }

  /** The four lines of the topic block. */
  function TopicLines(topic: string): seq<string> {
    ["", "Topic: " + topic, "", "Search Results:"]
  }

  lemma TopicLinesJoined(topic: string)
    ensures "\n" + JoinLines(TopicLines(topic)) + "\n" == TopicBlock(topic)
  {
    var c := TopicLines(topic);
    assert c[1..][1..][1..] == ["Search Results:"];
    assert JoinLines(c[1..][1..]) == "" + "\n" + "Search Results:";
    assert JoinLines(c[1..]) == "Topic: " + topic + "\n" + JoinLines(c[1..][1..]);
    assert JoinLines(c) == "" + "\n" + JoinLines(c[1..]);
  }

  /** Below any header made of lines, the prompt continues with exactly
      the tail lines. */
  lemma TailIsJoined(headerLines: seq<string>, topic: string, results: seq<SearchResult>)
    requires |headerLines| >= 1
    ensures PromptFrom(JoinLines(headerLines), topic, results)
         == JoinLines(headerLines + TailLines(topic, results))
  {
    var c := TopicLines(topic);
    var d := Entries(results) + [""];
    var h := JoinLines(headerLines);
    calc {
      JoinLines(headerLines + TailLines(topic, results));
      { JoinThree(headerLines, c, d); }
      h + ("\n" + JoinLines(c) + "\n") + JoinLines(d);
      { TopicLinesJoined(topic); ResultLinesJoin(results); }
      h + TopicBlock(topic) + ResultLines(results);
    }
  }

  lemma JoinThree(a: seq<string>, b: seq<string>, c: seq<string>)
    requires |a| >= 1 && |b| >= 1 && |c| >= 1
    ensures JoinLines(a + (b + c)) == JoinLines(a) + ("\n" + JoinLines(b) + "\n") + JoinLines(c)
  {
    JoinAppend(b, c);
    JoinAppend(a, b + c);
    Regroup(JoinLines(a), JoinLines(b), JoinLines(c));
  }

  lemma Regroup(a: string, b: string, c: string)
    ensures a + "\n" + (b + "\n" + c) == a + ("\n" + b + "\n") + c
  {
  }

  /** The lines of a header: persona, blank, heading, bulleted instructions. */
  function HeaderLines(description: string, instructions: seq<string>): (lines: seq<string>)
    ensures |lines| == 3 + |instructions|
  {
    [description, "", "Instructions:"] + Bulleted(instructions)
  }

  lemma HeaderIsJoined(description: string, instructions: seq<string>)
    requires |instructions| >= 1
    ensures HeaderOf(description, instructions) == JoinLines(HeaderLines(description, instructions))
  {
    var a := [description, "", "Instructions:"];
    JoinAppend(a, Bulleted(instructions));
    assert a[1..][1..] == ["Instructions:"];
    assert JoinLines(a[1..]) == "" + "\n" + "Instructions:";
  }

  /** The lines of the prompt, as `prompt.split("\n")` lists them. */
  function PromptLines(topic: string, results: seq<SearchResult>): (lines: seq<string>)
    ensures |lines| == 15 + |results|
  {
    HeaderLines(Description, Instructions) + TailLines(topic, results)
  }

  /** Line structure of a prompt for any single-line persona and
      instructions: the split gives back the header lines and the tail lines. */
  lemma LineStructure(description: string, instructions: seq<string>, topic: string, results: seq<SearchResult>)
    requires |instructions| >= 1
    requires SingleLine(description) && SingleLine(topic)
    requires forall k :: 0 <= k < |instructions| ==> SingleLine(instructions[k])
    requires forall i :: 0 <= i < |results| ==> SingleLine(results[i].title) && SingleLine(results[i].url)
    ensures SplitLines(PromptFrom(HeaderOf(description, instructions), topic, results))
         == HeaderLines(description, instructions) + TailLines(topic, results)
  {
    var hl := HeaderLines(description, instructions);
    HeaderIsJoined(description, instructions);
    TailIsJoined(hl, topic, results);
    var lines := hl + TailLines(topic, results);
    var n := |hl|;
    forall j | 0 <= j < |lines| ensures SingleLine(lines[j]) {
      if j < n {
        if j >= 3 {
          assert lines[j] == "- " + instructions[j - 3];
        }
      } else if j == n + 1 {
        assert lines[j] == "Topic: " + topic;
      } else if n + 4 <= j < n + 4 + |results| {
        var r := results[j - n - 4];
        assert lines[j] == "- " + r.title + ": " + r.url;
      } else {
        assert lines[j] == TailLines(topic, results)[j - n];
      }
    }
    SplitJoin(lines);
  }

  /** When the topic and the results hold no line break, the prompt has
      exactly `15 + |results|` lines: the persona, a blank line, the
      instructions heading, the seven instructions, a blank line, the topic,
      a blank line, the results heading, one line per result in input
      order, and the empty piece after the final line break. */
  lemma PromptLineStructure(topic: string, results: seq<SearchResult>)
    requires SingleLine(topic)
    requires forall i :: 0 <= i < |results| ==> SingleLine(results[i].title) && SingleLine(results[i].url)
    ensures SplitLines(PromptText(topic, results)) == PromptLines(topic, results)
    ensures |SplitLines(PromptText(topic, results))| == 15 + |results|
  {
    DescriptionSingle();
    forall k | 0 <= k < |Instructions| ensures SingleLine(Instructions[k]) {
      InstructionSingle(k);
    }
    LineStructure(Description, Instructions, topic, results);
  }

  /** The header lines followed by the tail lines, entry by entry. */
  lemma LinesAt(description: string, instructions: seq<string>, topic: string, results: seq<SearchResult>)
    ensures var lines := HeaderLines(description, instructions) + TailLines(topic, results);
      var n := |instructions|;
      && lines[0] == description && lines[1] == "" && lines[2] == "Instructions:"
      && (forall k :: 0 <= k < n ==> lines[3 + k] == "- " + instructions[k])
      && lines[n + 3] == "" && lines[n + 4] == "Topic: " + topic
      && lines[n + 5] == "" && lines[n + 6] == "Search Results:"
      && (forall i :: 0 <= i < |results| ==> lines[n + 7 + i] == "- " + results[i].title + ": " + results[i].url)
      && lines[n + 7 + |results|] == ""
  {
    var hl, tl := HeaderLines(description, instructions), TailLines(topic, results);
    var lines, n := hl + tl, |instructions|;
    forall k | 0 <= k < n ensures lines[3 + k] == "- " + instructions[k] {
      assert lines[3 + k] == hl[3 + k] == Bulleted(instructions)[k];
    }
    forall i | 0 <= i < |results| ensures lines[n + 7 + i] == "- " + results[i].title + ": " + results[i].url {
      assert lines[n + 7 + i] == tl[4 + i] == Entries(results)[i];
    }
    assert lines[n + 7 + |results|] == tl[4 + |results|];
  }

  /** Line by line, for a topic and results without line breaks: the
      persona, a blank line, the heading, each instruction after `- ` in
      the source's order, a blank line, `Topic: ` and the topic, a blank
      line, the results heading, each result as `- title: url` in input
      order, and the empty piece after the final line break. */
  lemma PromptLineContents(topic: string, results: seq<SearchResult>)
    requires SingleLine(topic)
    requires forall i :: 0 <= i < |results| ==> SingleLine(results[i].title) && SingleLine(results[i].url)
    ensures var lines := SplitLines(PromptText(topic, results));
      && |lines| == 15 + |results|
      && lines[0] == Description && lines[1] == "" && lines[2] == "Instructions:"
      && (forall k :: 0 <= k < |Instructions| ==> lines[3 + k] == "- " + Instructions[k])
      && lines[10] == "" && lines[11] == "Topic: " + topic
      && lines[12] == "" && lines[13] == "Search Results:"
      && (forall i :: 0 <= i < |results| ==> lines[14 + i] == "- " + results[i].title + ": " + results[i].url)
      && lines[14 + |results|] == ""
  {
    PromptLineStructure(topic, results);
    LinesAt(Description, Instructions, topic, results);
  }
}
