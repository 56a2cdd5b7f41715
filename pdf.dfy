/** The document object and the report routine that fills it step by step. */
module Pdf {
  import opened ReportData
  import opened Layout

  /** The document: the text placements issued so far, in order, and the
      number of pages. Text always goes on the newest page. */
  class Doc {
    var placed: seq<Placement>
    var pageCount: nat

    /** A new document has one empty page. */
    constructor ()
      ensures placed == [] && pageCount == 1
    {
      placed := [];
      pageCount := 1;
    }

    /** Append a page; it becomes the current page. */
    method AddPage()
      modifies this
      ensures placed == old(placed)
      ensures pageCount == old(pageCount) + 1
    {
      pageCount := pageCount + 1;
    }

    /** Write `text` at height `y` on the current page. */
    method Text(text: string, y: int)
      modifies this
      ensures placed == old(placed) + [Placement(old(pageCount), y, text)]
      ensures pageCount == old(pageCount)
    {
      placed := placed + [Placement(pageCount, y, text)];
    }
  }

  /** The loop over wrapped lines: each line is preceded by the overflow
      check and followed by one line step. Returns the new cursor. */
  method WriteLines(doc: Doc, y0: int, ghost breaks0: nat, lines: seq<string>) returns (y: int, ghost breaks: nat)
    modifies doc
    ensures Sheet(doc.placed, doc.pageCount, y, breaks)
         == FlowLines(Sheet(old(doc.placed), old(doc.pageCount), y0, breaks0), lines)
  {
    y, breaks := y0, breaks0;
    var i := 0;
    while i < |lines|
      invariant 0 <= i <= |lines|
      invariant FlowLines(Sheet(doc.placed, doc.pageCount, y, breaks), lines[i..])
             == FlowLines(Sheet(old(doc.placed), old(doc.pageCount), y0, breaks0), lines)
    {
      if y > BOTTOM_LIMIT {
        doc.AddPage();
        y := TOP_MARGIN;
        breaks := breaks + 1;
      }
      doc.Text(lines[i], y);
      y := y + LINE_STEP;
      i := i + 1;
    }
  }

  /** The callback run for each task: one overflow check, the four label
      lines, the wrapped body when `raw` is truthy, then the gap. */
  method WriteTask(doc: Doc, y0: int, ghost breaks0: nat, index: nat, task: TaskRecord, wrap: string -> seq<string>)
    returns (y: int, ghost breaks: nat)
    modifies doc
    ensures Sheet(doc.placed, doc.pageCount, y, breaks)
         == TaskBlock(Sheet(old(doc.placed), old(doc.pageCount), y0, breaks0), index, task, wrap)
  {
    ghost var sheet := Overflow(Sheet(doc.placed, doc.pageCount, y0, breaks0));
    y, breaks := y0, breaks0;
    if y > BOTTOM_LIMIT {
      doc.AddPage();
      y := TOP_MARGIN;
      breaks := breaks + 1;
    }
    assert Sheet(doc.placed, doc.pageCount, y, breaks) == sheet;
    var labels := TaskLabels(index, task);
    doc.Text(labels[0], y);
    y := y + LINE_STEP;
    sheet := Put(sheet, labels[0], LINE_STEP);
    doc.Text(labels[1], y);
    y := y + LINE_STEP;
    sheet := Put(sheet, labels[1], LINE_STEP);
    doc.Text(labels[2], y);
    y := y + LINE_STEP;
    sheet := Put(sheet, labels[2], LINE_STEP);
    doc.Text(labels[3], y);
    y := y + LINE_STEP;
    sheet := Put(sheet, labels[3], LINE_STEP);
    assert Sheet(doc.placed, doc.pageCount, y, breaks) == sheet;

    if Truthy(task.raw) {
      var taskText := wrap(task.raw.value);
      y, breaks := WriteLines(doc, y, breaks, taskText);
    }

    y := y + TASK_GAP;
  }

  /** The report routine: a cursor `y` walks down the page, overflow checks
      add pages, and three sections are laid out in turn. The document it
      builds is the one `Render` describes. */
  method GeneratePdf(r: ProjectResult, wrap: string -> seq<string>) returns (doc: Doc)
    ensures doc.placed == Render(r, wrap).placed
    ensures doc.pageCount == Render(r, wrap).pages
  {
    doc := new Doc();
    var y := TOP_MARGIN;
    ghost var breaks: nat := 0;

    doc.Text(TITLE, y);
    y := y + HEADING_STEP;
    doc.Text(REPORT_HEADING, y);
    y := y + HEADING_STEP;
    assert Sheet(doc.placed, doc.pageCount, y, breaks) == Put(Put(Start(), TITLE, HEADING_STEP), REPORT_HEADING, HEADING_STEP);

    var split := wrap(SummaryText(r.raw));
    y, breaks := WriteLines(doc, y, breaks, split);
    ghost var summary := SummarySection(r, wrap);
    assert Sheet(doc.placed, doc.pageCount, y, breaks) == summary;

    doc.AddPage();
    y := TOP_MARGIN;
    doc.Text(TASKS_HEADING, y);
    y := y + HEADING_STEP;

    ghost var before := Sheet(doc.placed, doc.pageCount, y, breaks);
    assert before == Put(NewPage(summary), TASKS_HEADING, HEADING_STEP);
    var j := 0;
    while j < |r.tasks|
      invariant 0 <= j <= |r.tasks|
      invariant FlowTasks(Sheet(doc.placed, doc.pageCount, y, breaks), r.tasks, j, wrap)
             == FlowTasks(before, r.tasks, 0, wrap)
    {
      y, breaks := WriteTask(doc, y, breaks, j, r.tasks[j], wrap);
      j := j + 1;
    }
    ghost var tasks := TasksSection(summary, r, wrap);
    assert Sheet(doc.placed, doc.pageCount, y, breaks) == tasks;

    doc.AddPage();
    y := TOP_MARGIN;
    doc.Text(TOKEN_HEADING, y);
    y := y + HEADING_STEP;
    doc.Text(PromptLine(r.tokenUsage), y);
    y := y + LINE_STEP;
    doc.Text(CompletionLine(r.tokenUsage), y);
    y := y + LINE_STEP;
    doc.Text(TotalLine(r.tokenUsage), y);
    assert Sheet(doc.placed, doc.pageCount, y, breaks) == TokenSection(tasks, r.tokenUsage);
  }
}
