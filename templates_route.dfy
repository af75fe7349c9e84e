/** The template catalog endpoint, `GET /api/templates` (app/api/templates/route.ts). The
    delay is left out; what remains is a constant list inside an envelope. */
module TemplatesRoute {
  import opened Types

  /** `{success, data}`. */
  datatype TemplatesEnvelope = TemplatesEnvelope(success: bool, data: seq<PromptTemplate>)

  /** The number of entries of `mockTemplates`. */
  const Count := 6

  /** `mockTemplates`, entry by entry: entry `k` has id `k + 1` written as a digit. */
  function MockTemplates(): (ts: seq<PromptTemplate>)
    ensures |ts| == Count
    ensures forall k :: 0 <= k < |ts| ==> ts[k].id == [('1' as int + k) as char]
  {
    seq(Count, k requires 0 <= k < Count => Entry(k))
  }

  function Entry(k: nat): PromptTemplate
    requires k < Count
  {
    PromptTemplate([('1' as int + k) as char], Name(k), Content(k), Category(k), CreatedAt(k))
  }

  /** The display names. */
  function Name(k: nat): string
    requires k < Count
  {
    match k
    case 0 => "Code Review"
    case 1 => "Creative Writing"
    case 2 => "Data Analysis"
    case 3 => "Explain Like I'm 5"
    case 4 => "Debugging Assistant"
    case 5 => "Brainstorm Ideas"
  }

  /** The category labels. */
  function Category(k: nat): string
    requires k < Count
  {
    match k
    case 0 => "Development"
    case 1 => "Writing"
    case 2 => "Analytics"
    case 3 => "Education"
    case 4 => "Development"
    case 5 => "Creative"
  }

  /** The creation timestamps. */
  function CreatedAt(k: nat): string
    requires k < Count
  {
    match k
    case 0 => "2024-12-01T10:00:00Z"
    case 1 => "2024-12-02T14:30:00Z"
    case 2 => "2024-12-03T09:15:00Z"
    case 3 => "2024-12-04T16:45:00Z"
    case 4 => "2024-12-05T11:20:00Z"
    case 5 => "2024-12-06T13:00:00Z"
  }

  /** The template bodies. */
  function Content(k: nat): string
    requires k < Count
  {
    match k
    case 0 =>
        "Please review the following code and provide feedback on:\n" +
        "1. Code quality and best practices\n" +
        "2. Potential bugs or issues\n" +
        "3. Performance optimizations\n" +
        "4. Security concerns\n\n" +
        "```\n" +
        "// Paste your code here\n" +
        "```"
    case 1 =>
        "Write a creative short story with the following elements:\n" +
        "- Setting: [Describe the setting]\n" +
        "- Characters: [List main characters]\n" +
        "- Theme: [What's the central theme?]\n" +
        "- Tone: [Serious, humorous, mysterious, etc.]\n\n" +
        "Please make it engaging and approximately 500 words."
    case 2 =>
        "Analyze the following dataset and provide insights:\n\n" +
        "1. Key trends and patterns\n" +
        "2. Statistical summary\n" +
        "3. Correlations between variables\n" +
        "4. Actionable recommendations\n\n" +
        "[Paste your data or describe your dataset here]"
    case 3 =>
        "Explain the following concept in simple terms that a 5-year-old could understand:\n\n" +
        "[Your complex topic here]\n\n" +
        "Use analogies, simple language, and examples from everyday life."
    case 4 =>
        "I'm encountering an error in my code. Here's the context:\n\n" +
        "**Error Message:**\n" +
        "```\n" +
        "[Paste error message here]\n" +
        "```\n\n" +
        "**Code:**\n" +
        "```\n" +
        "[Paste relevant code here]\n" +
        "```\n\n" +
        "**What I've tried:**\n" +
        "- [List what you've attempted]\n\n" +
        "Please help me identify the issue and suggest a solution."
    case 5 =>
        "Help me brainstorm creative ideas for:\n\n" +
        "**Topic:** [Describe your topic]\n" +
        "**Goal:** [What do you want to achieve?]\n" +
        "**Constraints:** [Any limitations or requirements?]\n" +
        "**Target Audience:** [Who is this for?]\n\n" +
        "Please provide at least 10 diverse and innovative ideas."
  }

  /** The list has six entries whose ids are the digits `1` to `6` in order, so no two share an id. */
  lemma TemplateIdsDistinct()
    ensures |MockTemplates()| == 6
    ensures forall k :: 0 <= k < 6 ==> MockTemplates()[k].id == [('1' as int + k) as char]
    ensures forall i, j :: 0 <= i < j < |MockTemplates()| ==> MockTemplates()[i].id != MockTemplates()[j].id
  {
    var ts := MockTemplates();
    forall i, j | 0 <= i < j < |ts| ensures ts[i].id != ts[j].id {
      assert ts[i].id[0] != ts[j].id[0];
    }
  }

  /** `GET`: always a success carrying the whole list. */
  function Get(): (e: TemplatesEnvelope)
    ensures e.success && |e.data| == Count && e.data == MockTemplates()
  {
    TemplatesEnvelope(true, MockTemplates())
  }
}
