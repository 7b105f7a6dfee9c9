/** The two download buttons shown after a successful generation
    (app.py:259-275): the same course text offered under two file names
    derived from the topic. */
module Download {

  /** `s.replace(' ', '_')`: every plain space becomes an underscore; no
      other character, whitespace included, is touched. */
  function ReplaceSpaces(s: string): (r: string)
    ensures |r| == |s|
    ensures forall i :: 0 <= i < |s| ==> r[i] == (if s[i] == ' ' then '_' else s[i])
  {
    if s == [] then []
    else [if s[0] == ' ' then '_' else s[0]] + ReplaceSpaces(s[1..])
  }

  const MarkdownSuffix: string := "_course_outline.md"
  const TextSuffix: string := "_course_outline.txt"

  /** `f"{topic.replace(' ', '_')}{suffix}"`. */
  function FileName(topic: string, suffix: string): (name: string)
    ensures |name| == |topic| + |suffix|
    ensures forall i :: 0 <= i < |topic| ==> name[i] == (if topic[i] == ' ' then '_' else topic[i])
    ensures name[|topic|..] == suffix
  {
    ReplaceSpaces(topic) + suffix
  }

  /** The arguments of one `st.download_button` call. */
  datatype DownloadButton = DownloadButton(caption: string, data: string, fileName: string, mime: string, key: string)

  /** The two buttons for a generated course. */
  function DownloadButtons(topic: string, course: string): (buttons: (DownloadButton, DownloadButton))
    ensures buttons.0.data == course && buttons.1.data == course
    ensures buttons.0.fileName == FileName(topic, MarkdownSuffix)
    ensures buttons.1.fileName == FileName(topic, TextSuffix)
  {
    (DownloadButton("📥 Download as Markdown", course, FileName(topic, MarkdownSuffix), "text/markdown", "download_md"),
     DownloadButton("📥 Download as Text", course, FileName(topic, TextSuffix), "text/plain", "download_txt"))
  }

  /** A file name never holds a plain space from the topic. */
  lemma NoSpaceInName(topic: string)
    ensures ' ' !in ReplaceSpaces(topic)
  {
    var r := ReplaceSpaces(topic);
    forall i | 0 <= i < |r| ensures r[i] != ' ' {
    }
  }

  /** Replacing again changes nothing. */
  lemma ReplaceSpacesIdempotent(s: string)
    ensures ReplaceSpaces(ReplaceSpaces(s)) == ReplaceSpaces(s)
  {
    var r := ReplaceSpaces(s);
    assert ReplaceSpaces(r) == r by {
      forall i | 0 <= i < |r| ensures ReplaceSpaces(r)[i] == r[i] {
      }
    }
  }

  /** Two topics get the same file name exactly when they agree everywhere
      except where one has a space and the other an underscore. */
  lemma SameNameIff(a: string, b: string, suffix: string)
    ensures FileName(a, suffix) == FileName(b, suffix)
        <==> |a| == |b| && forall i :: 0 <= i < |a| ==>
               (a[i] == b[i] || (a[i] in " _" && b[i] in " _"))
  {
    var na, nb := FileName(a, suffix), FileName(b, suffix);
    if na == nb {
      assert |a| == |b|;
      forall i | 0 <= i < |a| ensures a[i] == b[i] || (a[i] in " _" && b[i] in " _") {
        assert na[i] == nb[i];
      }
    }
  }

  /** So distinct topics can collide: "Machine Learning" and
      "Machine_Learning" download to the same file name. */
  lemma NamesCanCollide()
    ensures FileName("Machine Learning", MarkdownSuffix) == FileName("Machine_Learning", MarkdownSuffix)
  {
    SameNameIff("Machine Learning", "Machine_Learning", MarkdownSuffix);
  }

  /** Two space-free words around one space: the space becomes `_`. */
  lemma ReplaceOneSpace(w1: string, w2: string)
    requires ' ' !in w1 && ' ' !in w2
    ensures ReplaceSpaces(w1 + " " + w2) == w1 + "_" + w2
  {
    var s, r := w1 + " " + w2, ReplaceSpaces(w1 + " " + w2);
    forall i | 0 <= i < |s| ensures r[i] == (w1 + "_" + w2)[i] {
      if i < |w1| {
        assert s[i] == w1[i];
      } else if i > |w1| {
        assert s[i] == w2[i - |w1| - 1];
      }
    }
  }

  /** The worked example: "Machine Learning" gives
      `Machine_Learning_course_outline.md` and `.txt`. The topic is pinned
      by a precondition built from its two words rather than passed as one
      literal, which keeps the verifier from unfolding the replacement on
      every character of it. */
  lemma MachineLearningExample(topic: string)
    requires topic == "Machine" + " " + "Learning"
    ensures FileName(topic, MarkdownSuffix) == "Machine_Learning" + MarkdownSuffix
    ensures FileName(topic, TextSuffix) == "Machine_Learning" + TextSuffix
  {
    ReplaceOneSpace("Machine", "Learning");
  }
}
