/** The fixed wording of the prompt `generate_course` sends to the model
    (app.py:126-135), with the fact that none of it holds a line break. */
module Wording {
  import opened Text

  // The fixed texts of app.py:126-135. Each is written as a concatenation of
  // short literals: its value is the source's string, character for
  // character, but the verifier cannot see that a single literal of this
  // length holds no line break, while it can for each short piece.
  const Description: string :=
    "You are an " + "experienced " + "educator tasked " + "with creating a "
    + "comprehensive " + "course outline " + "on the given " + "topic."

  const CreateOutline: string :=
    "Create an " + "engaging and " + "informative " + "course outline "
    + "based on the " + "provided topic " + "and search " + "results."
  const IndexStructure: string :=
    "Structure the " + "course like a " + "detailed index " + "with essential "
    + "information for " + "each section."
  const RequiredSections: string :=
    "Include an " + "introduction, " + "learning " + "objectives, 4-5 "
    + "main modules " + "with 3-5 " + "subtopics each, " + "and a "
    + "conclusion."
  const ExplainAndLink: string :=
    "For each " + "concept or " + "topic, provide " + "a brief "
    + "explanation " + "followed by a " + "relevant " + "YouTube source "
    + "link for " + "further " + "learning."
  const SubstantialContent: string :=
    "Ensure the " + "content is " + "substantial, " + "informative, " + "and "
    + "well-organized, " + "resembling a " + "comprehensive " + "course page."
  const MarkdownFormatting: string :=
    "Use markdown " + "formatting to " + "structure the " + "document "
    + "clearly and " + "render formulas " + "where " + "applicable."
  const ProgrammingLanguages: string :=
    "If a " + "programming " + "language is " + "entered, " + "provide the "
    + "same detailed " + "information for " + "it."

  /** The instruction list, in the order the source gives it. */
  const Instructions: seq<string> := [
    CreateOutline, IndexStructure, RequiredSections, ExplainAndLink,
    SubstantialContent, MarkdownFormatting, ProgrammingLanguages
  ]

  lemma DescriptionSingle()
    ensures SingleLine(Description)
  {
  }

  lemma CreateOutlineSingle()
    ensures SingleLine(CreateOutline)
  {
  }

  lemma IndexStructureSingle()
    ensures SingleLine(IndexStructure)
  {
  }

  lemma RequiredSectionsSingle()
    ensures SingleLine(RequiredSections)
  {
  }

  lemma ExplainAndLinkSingle()
    ensures SingleLine(ExplainAndLink)
  {
  }

  lemma SubstantialContentSingle()
    ensures SingleLine(SubstantialContent)
  {
  }

  lemma MarkdownFormattingSingle()
    ensures SingleLine(MarkdownFormatting)
  {
  }

  lemma ProgrammingLanguagesSingle()
    ensures SingleLine(ProgrammingLanguages)
  {
  }

  lemma InstructionSingle(k: nat)
    requires k < |Instructions|
    ensures SingleLine(Instructions[k])
  {
    CreateOutlineSingle(); IndexStructureSingle(); RequiredSectionsSingle(); ExplainAndLinkSingle();
    SubstantialContentSingle(); MarkdownFormattingSingle(); ProgrammingLanguagesSingle();
  }
}
