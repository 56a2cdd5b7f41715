/** The report layout of `generatePDF` as functions over a layout state.

    The document is seen as the sequence of its text placements, in the
    order the routine issues them; each placement records the page it went
    on (numbered from 1), its vertical position and its text. The routine
    never moves back to an earlier page, so every text call writes to the
    newest page, whose number is the page count. Word wrapping is a
    parameter `wrap`, the wrapper at the fixed content width. */
module Layout {
  import opened ReportData

  const TOP_MARGIN: int := 20
  const BOTTOM_LIMIT: int := 280
  const LINE_STEP: int := 7
  const HEADING_STEP: int := 10
  const TASK_GAP: int := 10

  const TITLE: string := "Project Management Result"
  const REPORT_HEADING: string := "Comprehensive Progress Report"
  const SUMMARY_FALLBACK: string := "No data available."
  const TASKS_HEADING: string := "Tasks Output"
  const TOKEN_HEADING: string := "Token Usage"

  /** One text call: page number, vertical position, text. */
  datatype Placement = Placement(page: nat, y: int, text: string)

  /** The layout state: placements so far, the page count, the cursor `y`,
      and how many overflow breaks have been taken (a counter kept only by
      the model, to state the page count). */
  datatype Sheet = Sheet(placed: seq<Placement>, pages: nat, y: int, breaks: nat)

  /** A fresh document: one empty page, cursor at the top margin. */
  function Start(): Sheet {
    Sheet([], 1, TOP_MARGIN, 0)
  }

  /** Place `text` at the cursor on the current page, then move down by `dy`. */
  function Put(s: Sheet, text: string, dy: int): Sheet {
    Sheet(s.placed + [Placement(s.pages, s.y, text)], s.pages, s.y + dy, s.breaks)
  }

  /** An unconditional page break: add a page, cursor back to the top margin. */
  function NewPage(s: Sheet): Sheet {
    Sheet(s.placed, s.pages + 1, TOP_MARGIN, s.breaks)
  }

  /** The overflow check: past the bottom limit, add a page and reset the cursor. */
  function Overflow(s: Sheet): Sheet {
    if s.y > BOTTOM_LIMIT then Sheet(s.placed, s.pages + 1, TOP_MARGIN, s.breaks + 1) else s
  }

  /** Wrapped lines, each preceded by the overflow check and followed by one line step. */
  function FlowLines(s: Sheet, lines: seq<string>): Sheet
    decreases |lines|
  {
    if lines == [] then s else FlowLines(Put(Overflow(s), lines[0], LINE_STEP), lines[1..])
  }

  function SummaryText(raw: Option<string>): string {
    if Truthy(raw) then raw.value else SUMMARY_FALLBACK
  }

  /** The label of the task at zero-based position `i`: numbered from 1. */
  function TaskHeading(i: nat): string {
    "Task " + NatToString(i + 1) + ":"
  }

  function TaskLabels(i: nat, t: TaskRecord): seq<string> {
    [TaskHeading(i),
     "Agent: " + t.agent,
     "Description: " + t.description,
     "Expected Output: " + t.expectedOutput]
  }

  /** The start of a task: a single overflow check, then the four label
      lines, each one line step below the last. */
  function LabelTask(s: Sheet, i: nat, t: TaskRecord): Sheet {
    var labels := TaskLabels(i, t);
    var c := Overflow(s);
    var c := Put(c, labels[0], LINE_STEP);
    var c := Put(c, labels[1], LINE_STEP);
    var c := Put(c, labels[2], LINE_STEP);
    Put(c, labels[3], LINE_STEP)
  }

  /** One task: the labels, the wrapped body when `raw` is truthy, then the
      gap before the next task. */
  function TaskBlock(s: Sheet, i: nat, t: TaskRecord, wrap: string -> seq<string>): Sheet {
    var c := LabelTask(s, i, t);
    var c := if Truthy(t.raw) then FlowLines(c, wrap(t.raw.value)) else c;
    Sheet(c.placed, c.pages, c.y + TASK_GAP, c.breaks)
  }

  /** The tasks from position `i` on, in order. */
  function FlowTasks(s: Sheet, tasks: seq<TaskRecord>, i: nat, wrap: string -> seq<string>): Sheet
    requires i <= |tasks|
    decreases |tasks| - i
  {
    if i == |tasks| then s else FlowTasks(TaskBlock(s, i, tasks[i], wrap), tasks, i + 1, wrap)
  }

  function PromptLine(u: TokenUsage): string { "Prompt Tokens: " + NatToString(u.promptTokens) }
  function CompletionLine(u: TokenUsage): string { "Completion Tokens: " + NatToString(u.completionTokens) }
  function TotalLine(u: TokenUsage): string { "Total Tokens: " + NatToString(u.totalTokens) }

  /** Page 1: title, report heading, wrapped summary. */
  function SummarySection(r: ProjectResult, wrap: string -> seq<string>): Sheet {
    var c := Put(Start(), TITLE, HEADING_STEP);
    var c := Put(c, REPORT_HEADING, HEADING_STEP);
    FlowLines(c, wrap(SummaryText(r.raw)))
  }

  /** A forced page with the tasks heading, then every task. */
  function TasksSection(s: Sheet, r: ProjectResult, wrap: string -> seq<string>): Sheet {
    FlowTasks(Put(NewPage(s), TASKS_HEADING, HEADING_STEP), r.tasks, 0, wrap)
  }

  /** A forced page with the token heading and three counter lines, unchecked. */
  function TokenSection(s: Sheet, u: TokenUsage): Sheet {
    var c := Put(NewPage(s), TOKEN_HEADING, HEADING_STEP);
    var c := Put(c, PromptLine(u), LINE_STEP);
    var c := Put(c, CompletionLine(u), LINE_STEP);
    Put(c, TotalLine(u), 0)
  }

  /** The whole report. */
  function Render(r: ProjectResult, wrap: string -> seq<string>): Sheet {
    TokenSection(TasksSection(SummarySection(r, wrap), r, wrap), r.tokenUsage)
  }

  /** The texts of a list of placements, in order. */
  function Texts(ps: seq<Placement>): (ts: seq<string>)
    ensures |ts| == |ps|
    ensures forall k :: 0 <= k < |ps| ==> ts[k] == ps[k].text
  {
    seq(|ps|, k requires 0 <= k < |ps| => ps[k].text)
  }
}
