/** What the report layout guarantees: where each line goes, which lines
    can overflow the page, how many pages the report has, and that the
    paging never loses or reorders text. */
module LayoutFacts {
  import opened ReportData
  import opened Layout

  /* ----- Reference definitions ----- */

  /** `b` is the placement after `a`: lower on the same page, or at the top
      of the very next page. */
  predicate Follows(a: Placement, b: Placement) {
    || (b.page == a.page && b.y > a.y)
    || (b.page == a.page + 1 && b.y == TOP_MARGIN)
  }

  /** Pages are filled in order from page 1, no page is skipped or left
      blank, and every page begins at the top margin. */
  ghost predicate Contiguous(ps: seq<Placement>) {
    && |ps| > 0
    && ps[0].page == 1
    && forall i, j :: 0 <= i < j < |ps| && j == i + 1 ==> Follows(ps[i], ps[j])
  }

  /** A layout state between two lines: the placements are contiguous, the
      current page is the last one written, and the cursor is below the
      last line. */
  ghost predicate Flowing(s: Sheet) {
    && Contiguous(s.placed)
    && s.placed[|s.placed| - 1].page == s.pages
    && s.y > s.placed[|s.placed| - 1].y
    && s.y >= TOP_MARGIN
  }

  /** Two consecutive wrapped lines: one line step lower on the same page,
      or, when that step passes the bottom limit, the top of the next page. */
  predicate WrapStep(a: Placement, b: Placement) {
    if a.y + LINE_STEP > BOTTOM_LIMIT then b.page == a.page + 1 && b.y == TOP_MARGIN
    else b.page == a.page && b.y == a.y + LINE_STEP
  }

  /** How many wrapped lines still fit on the current page from cursor `y`. */
  function Fit(y: int): nat {
    if y > BOTTOM_LIMIT then 0 else (BOTTOM_LIMIT - y) / LINE_STEP + 1
  }

  /** Pages added when `n` wrapped lines flow from cursor `y`; a fresh page
      holds Fit(TOP_MARGIN) = 38 lines. */
  function OverflowPages(y: int, n: nat): nat {
    if n <= Fit(y) then 0 else 1 + (n - Fit(y) - 1) / Fit(TOP_MARGIN)
  }

  /** The text lines of one task, in order. */
  function TaskBody(t: TaskRecord, wrap: string -> seq<string>): seq<string> {
    if Truthy(t.raw) then wrap(t.raw.value) else []
  }

  function TaskLines(i: nat, t: TaskRecord, wrap: string -> seq<string>): seq<string> {
    TaskLabels(i, t) + TaskBody(t, wrap)
  }

  function AllTaskLines(tasks: seq<TaskRecord>, i: nat, wrap: string -> seq<string>): seq<string>
    requires i <= |tasks|
    decreases |tasks| - i
  {
    if i == |tasks| then [] else TaskLines(i, tasks[i], wrap) + AllTaskLines(tasks, i + 1, wrap)
  }

  /** Every line of the report, in reading order, regardless of paging. */
  function ReportText(r: ProjectResult, wrap: string -> seq<string>): seq<string> {
    var summary := if r.raw.Some? && r.raw.value != "" then r.raw.value else "No data available.";
    var u := r.tokenUsage;
    [TITLE, REPORT_HEADING] + wrap(summary)
    + [TASKS_HEADING] + AllTaskLines(r.tasks, 0, wrap)
    + [TOKEN_HEADING, PromptLine(u), CompletionLine(u), TotalLine(u)]
  }

  /* ----- Single steps ----- */

  lemma TextsAppend(ps: seq<Placement>, p: Placement)
    ensures Texts(ps + [p]) == Texts(ps) + [p.text]
  {
    assert Texts(ps + [p]) == Texts(ps) + [p.text];
  }

  /** Writing a line keeps the layout flowing: after the overflow check,
      after a forced page, or without any check. */
  lemma PutFlowing(s: Sheet, text: string, dy: int)
    requires Flowing(s) && dy > 0
    ensures Flowing(Put(s, text, dy))
    ensures Flowing(Put(Overflow(s), text, dy))
    ensures Flowing(Put(NewPage(s), text, dy))
  {
    AppendFollows(s.placed, Placement(s.pages, s.y, text));
    AppendFollows(s.placed, Placement(s.pages + 1, TOP_MARGIN, text));
  }

  lemma AppendFollows(ps: seq<Placement>, p: Placement)
    requires Contiguous(ps) && Follows(ps[|ps| - 1], p)
    ensures Contiguous(ps + [p])
  {
    var qs := ps + [p];
    forall i, j | 0 <= i < j < |qs| && j == i + 1 ensures Follows(qs[i], qs[j]) {
      if j < |ps| {
        assert qs[i] == ps[i] && qs[j] == ps[j];
      }
    }
  }

  /* ----- Wrapped lines ----- */

  /** Flowing wrapped lines only appends: earlier placements are kept, and
      pages are added only by overflow breaks. */
  lemma {:induction false} FlowLinesPrefix(s: Sheet, lines: seq<string>)
    ensures var r := FlowLines(s, lines);
      && s.placed <= r.placed
      && r.pages + s.breaks == s.pages + r.breaks
      && s.pages <= r.pages
    decreases |lines|
  {
    if lines != [] {
      FlowLinesPrefix(Put(Overflow(s), lines[0], LINE_STEP), lines[1..]);
    }
  }

  /** The wrapped lines are written in order, none lost. */
  lemma {:induction false} FlowLinesTexts(s: Sheet, lines: seq<string>)
    ensures Texts(FlowLines(s, lines).placed) == Texts(s.placed) + lines
    decreases |lines|
  {
    if lines != [] {
      var s1 := Put(Overflow(s), lines[0], LINE_STEP);
      FlowLinesTexts(s1, lines[1..]);
      TextsAppend(s.placed, Placement(Overflow(s).pages, Overflow(s).y, lines[0]));
      assert lines == [lines[0]] + lines[1..];
    }
  }

  /** Wrapped lines one after the other: each is one step below the line
      before it, or at the top of the next page when that step would pass
      the bottom limit. */
  ghost predicate WrapSteps(ps: seq<Placement>) {
    forall i, j :: 0 <= i < j < |ps| && j == i + 1 ==> WrapStep(ps[i], ps[j])
  }

  /** Where the first wrapped line goes: at the cursor, or at the top of
      one new page when the cursor is past the bottom limit. The cursor
      ends one step below the last line, on the last line's page. */
  lemma {:induction false} FlowLinesEnds(s: Sheet, lines: seq<string>)
    ensures |FlowLines(s, lines).placed| == |s.placed| + |lines|
    ensures var r := FlowLines(s, lines);
      && (|lines| > 0 ==> r.placed[|s.placed|] == (if s.y > BOTTOM_LIMIT then Placement(s.pages + 1, TOP_MARGIN, lines[0])
                                                  else Placement(s.pages, s.y, lines[0])))
      && (|lines| > 0 ==> r.y == r.placed[|r.placed| - 1].y + LINE_STEP && r.pages == r.placed[|r.placed| - 1].page)
    decreases |lines|
  {
    if lines != [] {
      var s1 := Put(Overflow(s), lines[0], LINE_STEP);
      FlowLinesEnds(s1, lines[1..]);
      FlowLinesPrefix(s1, lines[1..]);
      assert FlowLines(s1, lines[1..]).placed[|s.placed|] == s1.placed[|s.placed|];
    }
  }

  /** Every wrapped line is placed, in order, between the top margin and
      the bottom limit. */
  lemma {:induction false} FlowLinesPositions(s: Sheet, lines: seq<string>)
    requires s.y >= TOP_MARGIN
    ensures |FlowLines(s, lines).placed| == |s.placed| + |lines|
    ensures var q := FlowLines(s, lines).placed[|s.placed|..];
      forall j :: 0 <= j < |q| ==> q[j].text == lines[j] && TOP_MARGIN <= q[j].y <= BOTTOM_LIMIT
    ensures FlowLines(s, lines).y >= TOP_MARGIN
    decreases |lines|
  {
    FlowLinesEnds(s, lines);
    if lines != [] {
      var k := |s.placed|;
      var s1 := Put(Overflow(s), lines[0], LINE_STEP);
      var r := FlowLines(s1, lines[1..]);
      FlowLinesPositions(s1, lines[1..]);
      FlowLinesPrefix(s1, lines[1..]);
      var q := r.placed[k..];
      var q1 := r.placed[k + 1..];
      assert q == [s1.placed[k]] + q1;
      assert lines == [lines[0]] + lines[1..];
    }
  }

  /** Each wrapped line after the first is one step below the line before
      it, or, when that step would pass the bottom limit, at the top of
      exactly one new page. */
  lemma {:induction false} FlowLinesSteps(s: Sheet, lines: seq<string>)
    requires s.y >= TOP_MARGIN
    ensures |FlowLines(s, lines).placed| == |s.placed| + |lines|
    ensures WrapSteps(FlowLines(s, lines).placed[|s.placed|..])
    decreases |lines|
  {
    if lines != [] {
      var k := |s.placed|;
      var s1 := Put(Overflow(s), lines[0], LINE_STEP);
      var r := FlowLines(s1, lines[1..]);
      FlowLinesSteps(s1, lines[1..]);
      FlowLinesEnds(s1, lines[1..]);
      FlowLinesPrefix(s1, lines[1..]);
      var p0 := s1.placed[k];
      var q := r.placed[k..];
      var q1 := r.placed[k + 1..];
      assert q == [p0] + q1;
      forall i, j | 0 <= i < j < |q| && j == i + 1 ensures WrapStep(q[i], q[j]) {
        if i == 0 {
          assert q[j] == q1[0];
          assert p0.y + LINE_STEP == s1.y && p0.page == s1.pages;
        } else {
          assert q[i] == q1[i - 1] && q[j] == q1[j - 1];
        }
      }
    }
  }

  /** Wrapped lines that all fit above the bottom limit take no break:
      the cursor moves down one line step per line. */
  lemma {:induction false} FlowLinesNoBreak(s: Sheet, lines: seq<string>)
    requires lines != [] ==> s.y + LINE_STEP * (|lines| - 1) <= BOTTOM_LIMIT
    ensures var r := FlowLines(s, lines);
      r.pages == s.pages && r.y == s.y + LINE_STEP * |lines|
    decreases |lines|
  {
    if lines != [] {
      FlowLinesNoBreak(Put(Overflow(s), lines[0], LINE_STEP), lines[1..]);
    }
  }

  /** The number of pages wrapped lines add, in closed form. */
  lemma {:induction false} FlowLinesPageCount(s: Sheet, lines: seq<string>)
    ensures FlowLines(s, lines).pages == s.pages + OverflowPages(s.y, |lines|)
    decreases |lines|
  {
    if lines != [] {
      var s1 := Put(Overflow(s), lines[0], LINE_STEP);
      FlowLinesPageCount(s1, lines[1..]);
      var n := |lines|;
      if s.y > BOTTOM_LIMIT {
        assert s1.y == 27 && Fit(27) == 37 && Fit(s.y) == 0;
        assert OverflowPages(s.y, n) == 1 + (n - 1) / 38;
      } else {
        assert Fit(s.y + LINE_STEP) == Fit(s.y) - 1;
      }
    }
  }

  lemma {:induction false} FlowLinesFlowing(s: Sheet, lines: seq<string>)
    requires Flowing(s)
    ensures Flowing(FlowLines(s, lines))
    decreases |lines|
  {
    if lines != [] {
      PutFlowing(s, lines[0], LINE_STEP);
      FlowLinesFlowing(Put(Overflow(s), lines[0], LINE_STEP), lines[1..]);
    }
  }

  /* ----- Tasks ----- */

  /** The four labels of a task. A single overflow check comes before the
      heading, so the heading is at most at the bottom limit; the three
      labels after it are unchecked and reach at most three line steps lower. */
  lemma LabelTaskLayout(s: Sheet, i: nat, t: TaskRecord)
    requires s.y >= TOP_MARGIN
    ensures var c := LabelTask(s, i, t);
      var top := if s.y > BOTTOM_LIMIT then s.pages + 1 else s.pages;
      var y0 := if s.y > BOTTOM_LIMIT then TOP_MARGIN else s.y;
      && TOP_MARGIN <= y0 <= BOTTOM_LIMIT
      && c.placed == s.placed + [Placement(top, y0, TaskHeading(i)),
                                 Placement(top, y0 + LINE_STEP, "Agent: " + t.agent),
                                 Placement(top, y0 + 2 * LINE_STEP, "Description: " + t.description),
                                 Placement(top, y0 + 3 * LINE_STEP, "Expected Output: " + t.expectedOutput)]
      && c.pages == top
      && c.y == y0 + 4 * LINE_STEP
      && c.pages + s.breaks == s.pages + c.breaks
  {
    var labels := TaskLabels(i, t);
    var c := Overflow(s);
    assert LabelTask(s, i, t)
        == Put(Put(Put(Put(c, labels[0], LINE_STEP), labels[1], LINE_STEP), labels[2], LINE_STEP), labels[3], LINE_STEP);
  }

  /** One task block: the labels as above; body lines only for a truthy
      `raw`, each at most at the bottom limit; then the gap of 10, whether
      or not there were body lines. */
  lemma TaskBlockLayout(s: Sheet, i: nat, t: TaskRecord, wrap: string -> seq<string>)
    requires s.y >= TOP_MARGIN
    ensures |TaskBlock(s, i, t, wrap).placed| == |s.placed| + 4 + |TaskBody(t, wrap)|
    ensures var r := TaskBlock(s, i, t, wrap);
      var c := LabelTask(s, i, t);
      var body := TaskBody(t, wrap);
      && c.placed <= r.placed
      && (forall j :: 0 <= j < |body| ==>
            r.placed[|c.placed| + j].text == body[j] && TOP_MARGIN <= r.placed[|c.placed| + j].y <= BOTTOM_LIMIT)
      && (body == [] ==> r.placed == c.placed && r.pages == c.pages && r.y == c.y + TASK_GAP)
      && (body != [] ==> r.y == r.placed[|r.placed| - 1].y + LINE_STEP + TASK_GAP)
      && r.y >= TOP_MARGIN
  {
    var c := LabelTask(s, i, t);
    LabelTaskLayout(s, i, t);
    var body := TaskBody(t, wrap);
    var f := FlowLines(c, body);
    FlowLinesPositions(c, body);
    FlowLinesEnds(c, body);
    FlowLinesPrefix(c, body);
    var r := TaskBlock(s, i, t, wrap);
    assert r.placed == f.placed && r.y == f.y + TASK_GAP && r.pages == f.pages;
    var q := f.placed[|c.placed|..];
    forall j | 0 <= j < |body|
      ensures r.placed[|c.placed| + j].text == body[j] && TOP_MARGIN <= r.placed[|c.placed| + j].y <= BOTTOM_LIMIT
    {
      assert r.placed[|c.placed| + j] == q[j];
    }
  }

  /** A task whose labels and body all fit below the cursor takes no
      break: the cursor moves down by the four labels, the body lines and
      the gap. */
  lemma TaskBlockNoBreak(s: Sheet, i: nat, t: TaskRecord, wrap: string -> seq<string>)
    requires TOP_MARGIN <= s.y <= BOTTOM_LIMIT
    requires TaskBody(t, wrap) != [] ==> s.y + LINE_STEP * (|TaskBody(t, wrap)| + 3) <= BOTTOM_LIMIT
    ensures var r := TaskBlock(s, i, t, wrap);
      && r.pages == s.pages
      && r.y == s.y + 4 * LINE_STEP + LINE_STEP * |TaskBody(t, wrap)| + TASK_GAP
  {
    LabelTaskLayout(s, i, t);
    FlowLinesNoBreak(LabelTask(s, i, t), TaskBody(t, wrap));
  }

  /** Every line of one task block lies between the top margin and 301. */
  lemma TaskBlockBounds(s: Sheet, i: nat, t: TaskRecord, wrap: string -> seq<string>)
    requires s.y >= TOP_MARGIN
    ensures var r := TaskBlock(s, i, t, wrap);
      && |s.placed| <= |r.placed|
      && (forall k :: |s.placed| <= k < |r.placed| ==> TOP_MARGIN <= r.placed[k].y <= BOTTOM_LIMIT + 3 * LINE_STEP)
      && r.y >= TOP_MARGIN
  {
    var c := LabelTask(s, i, t);
    LabelTaskLayout(s, i, t);
    TaskBlockLayout(s, i, t, wrap);
    var r := TaskBlock(s, i, t, wrap);
    var body := TaskBody(t, wrap);
    forall k | |s.placed| <= k < |r.placed|
      ensures TOP_MARGIN <= r.placed[k].y <= BOTTOM_LIMIT + 3 * LINE_STEP
    {
      if k < |c.placed| {
        assert r.placed[k] == c.placed[k];
      } else {
        var j := k - |c.placed|;
        assert r.placed[|c.placed| + j].text == body[j];
      }
    }
  }

  lemma TaskBlockPrefix(s: Sheet, i: nat, t: TaskRecord, wrap: string -> seq<string>)
    ensures var r := TaskBlock(s, i, t, wrap);
      && s.placed <= r.placed
      && r.pages + s.breaks == s.pages + r.breaks
      && s.pages <= r.pages
  {
    var labels := TaskLabels(i, t);
    var c4 := Put(Put(Put(Put(Overflow(s), labels[0], LINE_STEP), labels[1], LINE_STEP), labels[2], LINE_STEP), labels[3], LINE_STEP);
    assert LabelTask(s, i, t) == c4;
    FlowLinesPrefix(c4, TaskBody(t, wrap));
  }

  lemma TaskBlockTexts(s: Sheet, i: nat, t: TaskRecord, wrap: string -> seq<string>)
    ensures Texts(TaskBlock(s, i, t, wrap).placed) == Texts(s.placed) + TaskLines(i, t, wrap)
  {
    var c := Overflow(s);
    var labels := TaskLabels(i, t);
    var c1 := Put(c, labels[0], LINE_STEP);
    var c2 := Put(c1, labels[1], LINE_STEP);
    var c3 := Put(c2, labels[2], LINE_STEP);
    var c4 := Put(c3, labels[3], LINE_STEP);
    assert LabelTask(s, i, t) == c4;
    TextsAppend(c.placed, c1.placed[|c.placed|]);
    TextsAppend(c1.placed, c2.placed[|c1.placed|]);
    TextsAppend(c2.placed, c3.placed[|c2.placed|]);
    TextsAppend(c3.placed, c4.placed[|c3.placed|]);
    assert Texts(c4.placed) == Texts(s.placed) + labels;
    FlowLinesTexts(c4, TaskBody(t, wrap));
  }

  lemma TaskBlockFlowing(s: Sheet, i: nat, t: TaskRecord, wrap: string -> seq<string>)
    requires Flowing(s)
    ensures Flowing(TaskBlock(s, i, t, wrap))
  {
    var labels := TaskLabels(i, t);
    var c1 := Put(Overflow(s), labels[0], LINE_STEP);
    PutFlowing(s, labels[0], LINE_STEP);
    PutFlowing(c1, labels[1], LINE_STEP);
    var c2 := Put(c1, labels[1], LINE_STEP);
    PutFlowing(c2, labels[2], LINE_STEP);
    var c3 := Put(c2, labels[2], LINE_STEP);
    PutFlowing(c3, labels[3], LINE_STEP);
    var c4 := Put(c3, labels[3], LINE_STEP);
    assert LabelTask(s, i, t) == c4;
    FlowLinesFlowing(c4, TaskBody(t, wrap));
  }

  /** The task loop only appends, and adds pages only by overflow breaks. */
  lemma {:induction false} FlowTasksPrefix(s: Sheet, tasks: seq<TaskRecord>, i: nat, wrap: string -> seq<string>)
    requires i <= |tasks|
    ensures var r := FlowTasks(s, tasks, i, wrap);
      && s.placed <= r.placed
      && r.pages + s.breaks == s.pages + r.breaks
      && s.pages <= r.pages
    decreases |tasks| - i
  {
    if i < |tasks| {
      TaskBlockPrefix(s, i, tasks[i], wrap);
      FlowTasksPrefix(TaskBlock(s, i, tasks[i], wrap), tasks, i + 1, wrap);
    }
  }

  /** Tasks are written in input order, each under its own number. */
  lemma {:induction false} FlowTasksTexts(s: Sheet, tasks: seq<TaskRecord>, i: nat, wrap: string -> seq<string>)
    requires i <= |tasks|
    ensures Texts(FlowTasks(s, tasks, i, wrap).placed) == Texts(s.placed) + AllTaskLines(tasks, i, wrap)
    decreases |tasks| - i
  {
    if i < |tasks| {
      var s1 := TaskBlock(s, i, tasks[i], wrap);
      TaskBlockTexts(s, i, tasks[i], wrap);
      FlowTasksTexts(s1, tasks, i + 1, wrap);
      var rest := AllTaskLines(tasks, i + 1, wrap);
      assert AllTaskLines(tasks, i, wrap) == TaskLines(i, tasks[i], wrap) + rest;
      assert Texts(FlowTasks(s, tasks, i, wrap).placed) == (Texts(s.placed) + TaskLines(i, tasks[i], wrap)) + rest;
    }
  }

  lemma {:induction false} FlowTasksFlowing(s: Sheet, tasks: seq<TaskRecord>, i: nat, wrap: string -> seq<string>)
    requires i <= |tasks| && Flowing(s)
    ensures Flowing(FlowTasks(s, tasks, i, wrap))
    decreases |tasks| - i
  {
    if i < |tasks| {
      TaskBlockFlowing(s, i, tasks[i], wrap);
      FlowTasksFlowing(TaskBlock(s, i, tasks[i], wrap), tasks, i + 1, wrap);
    }
  }

  /** Every line a task section writes lies between the top margin and 301:
      the bottom limit plus the three unchecked label steps. */
  lemma {:induction false} FlowTasksBounds(s: Sheet, tasks: seq<TaskRecord>, i: nat, wrap: string -> seq<string>)
    requires i <= |tasks| && s.y >= TOP_MARGIN
    ensures var r := FlowTasks(s, tasks, i, wrap);
      && (forall k :: |s.placed| <= k < |r.placed| ==> TOP_MARGIN <= r.placed[k].y <= BOTTOM_LIMIT + 3 * LINE_STEP)
      && r.y >= TOP_MARGIN
    decreases |tasks| - i
  {
    if i < |tasks| {
      var s1 := TaskBlock(s, i, tasks[i], wrap);
      TaskBlockBounds(s, i, tasks[i], wrap);
      FlowTasksBounds(s1, tasks, i + 1, wrap);
      FlowTasksPrefix(s1, tasks, i + 1, wrap);
      var r := FlowTasks(s, tasks, i, wrap);
      forall k | |s.placed| <= k < |s1.placed|
        ensures TOP_MARGIN <= r.placed[k].y <= BOTTOM_LIMIT + 3 * LINE_STEP
      {
        assert r.placed[k] == s1.placed[k];
      }
    }
  }

  /** The bound 301 is reached: a task whose check sees the cursor exactly at
      the bottom limit puts its "Expected Output" label at 301, on the same
      page as its heading. */
  lemma ExpectedOutputReaches301(s: Sheet, i: nat, t: TaskRecord, wrap: string -> seq<string>)
    requires s.y == BOTTOM_LIMIT
    ensures var r := TaskBlock(s, i, t, wrap);
      && |r.placed| >= |s.placed| + 4
      && r.placed[|s.placed|] == Placement(s.pages, BOTTOM_LIMIT, TaskHeading(i))
      && r.placed[|s.placed| + 3] == Placement(s.pages, 301, "Expected Output: " + t.expectedOutput)
  {
    LabelTaskLayout(s, i, t);
    TaskBlockLayout(s, i, t, wrap);
  }

  /* ----- The whole report ----- */

  lemma SummaryFlowing(r: ProjectResult, wrap: string -> seq<string>)
    ensures Flowing(SummarySection(r, wrap))
    ensures SummarySection(r, wrap).pages == 1 + SummarySection(r, wrap).breaks
  {
    var c := Put(Put(Start(), TITLE, HEADING_STEP), REPORT_HEADING, HEADING_STEP);
    assert Flowing(Put(Start(), TITLE, HEADING_STEP));
    PutFlowing(Put(Start(), TITLE, HEADING_STEP), REPORT_HEADING, HEADING_STEP);
    FlowLinesFlowing(c, wrap(SummaryText(r.raw)));
    FlowLinesPrefix(c, wrap(SummaryText(r.raw)));
  }

  lemma TasksFlowing(r: ProjectResult, wrap: string -> seq<string>)
    ensures var s := SummarySection(r, wrap);
      var t := TasksSection(s, r, wrap);
      && Flowing(t)
      && t.pages == 2 + t.breaks
      && s.pages < t.pages
  {
    var s := SummarySection(r, wrap);
    SummaryFlowing(r, wrap);
    PutFlowing(s, TASKS_HEADING, HEADING_STEP);
    FlowTasksFlowing(Put(NewPage(s), TASKS_HEADING, HEADING_STEP), r.tasks, 0, wrap);
    FlowTasksPrefix(Put(NewPage(s), TASKS_HEADING, HEADING_STEP), r.tasks, 0, wrap);
  }

  /** Page 1 opens with the title at 20 and the report heading at 30; the
      first summary line, if any, is at 40 on page 1. */
  lemma TitleBlock(r: ProjectResult, wrap: string -> seq<string>)
    ensures var d := Render(r, wrap).placed;
      var lines := wrap(SummaryText(r.raw));
      && |d| >= 6
      && d[0] == Placement(1, 20, TITLE)
      && d[1] == Placement(1, 30, REPORT_HEADING)
      && (|lines| > 0 ==> d[2] == Placement(1, 40, lines[0]))
  {
    var c := Put(Put(Start(), TITLE, HEADING_STEP), REPORT_HEADING, HEADING_STEP);
    var lines := wrap(SummaryText(r.raw));
    FlowLinesPositions(c, lines);
    FlowLinesEnds(c, lines);
    PrefixOfRender(r, wrap);
    FlowLinesPrefix(c, lines);
  }

  /** Every section only appends to the one before it. */
  lemma PrefixOfRender(r: ProjectResult, wrap: string -> seq<string>)
    ensures var s := SummarySection(r, wrap);
      var t := TasksSection(s, r, wrap);
      var d := Render(r, wrap);
      && s.placed + [Placement(s.pages + 1, TOP_MARGIN, TASKS_HEADING)] <= t.placed
      && t.placed <= d.placed
      && |d.placed| == |t.placed| + 4
  {
    var s := SummarySection(r, wrap);
    FlowTasksPrefix(Put(NewPage(s), TASKS_HEADING, HEADING_STEP), r.tasks, 0, wrap);
  }

  /** The "Tasks Output" heading always opens a fresh page at the top margin:
      the page after the last summary line, whatever the cursor was. */
  lemma TasksHeadingOnFreshPage(r: ProjectResult, wrap: string -> seq<string>)
    ensures var s := SummarySection(r, wrap);
      var d := Render(r, wrap).placed;
      var k := |s.placed|;
      && 0 < k < |d|
      && d[k] == Placement(d[k - 1].page + 1, TOP_MARGIN, TASKS_HEADING)
  {
    SummaryFlowing(r, wrap);
    PrefixOfRender(r, wrap);
  }

  /** The last page holds exactly the token heading at 20 and the three
      counters at 30, 37 and 44; it is a fresh page and nothing follows it. */
  lemma TokenUsageLastPage(r: ProjectResult, wrap: string -> seq<string>)
    ensures var R := Render(r, wrap);
      var d := R.placed;
      var n := |d|;
      var u := r.tokenUsage;
      && n >= 5
      && d[n - 4..] == [Placement(R.pages, 20, TOKEN_HEADING),
                        Placement(R.pages, 30, PromptLine(u)),
                        Placement(R.pages, 37, CompletionLine(u)),
                        Placement(R.pages, 44, TotalLine(u))]
      && d[n - 5].page == R.pages - 1
  {
    TasksFlowing(r, wrap);
    PrefixOfRender(r, wrap);
  }

  /** No page is skipped or left blank, every page starts at the top margin,
      lines on one page go downward, and the last line is on the last page. */
  lemma RenderContiguous(r: ProjectResult, wrap: string -> seq<string>)
    ensures var R := Render(r, wrap);
      && Contiguous(R.placed)
      && R.placed[|R.placed| - 1].page == R.pages
  {
    var t := TasksSection(SummarySection(r, wrap), r, wrap);
    var u := r.tokenUsage;
    TasksFlowing(r, wrap);
    var c1 := Put(NewPage(t), TOKEN_HEADING, HEADING_STEP);
    PutFlowing(t, TOKEN_HEADING, HEADING_STEP);
    var c2 := Put(c1, PromptLine(u), LINE_STEP);
    PutFlowing(c1, PromptLine(u), LINE_STEP);
    var c3 := Put(c2, CompletionLine(u), LINE_STEP);
    PutFlowing(c2, CompletionLine(u), LINE_STEP);
    AppendFollows(c3.placed, Placement(c3.pages, c3.y, TotalLine(u)));
  }

  /** The report has three pages plus one per overflow break taken. */
  lemma RenderPageCount(r: ProjectResult, wrap: string -> seq<string>)
    ensures Render(r, wrap).pages == 3 + Render(r, wrap).breaks
  {
    TasksFlowing(r, wrap);
  }

  /** Page 1 holds the title block and the first 35 summary lines; each
      further 38 summary lines take one more page. */
  lemma SummaryPageCount(r: ProjectResult, wrap: string -> seq<string>)
    ensures var n := |wrap(SummaryText(r.raw))|;
      SummarySection(r, wrap).pages == 1 + (if n <= 35 then 0 else 1 + (n - 36) / 38)
  {
    var c := Put(Put(Start(), TITLE, HEADING_STEP), REPORT_HEADING, HEADING_STEP);
    FlowLinesPageCount(c, wrap(SummaryText(r.raw)));
    assert Fit(40) == 35;
  }

  lemma SummarySectionTexts(r: ProjectResult, wrap: string -> seq<string>)
    ensures Texts(SummarySection(r, wrap).placed) == [TITLE, REPORT_HEADING] + wrap(SummaryText(r.raw))
  {
    var c0 := Put(Start(), TITLE, HEADING_STEP);
    var c := Put(c0, REPORT_HEADING, HEADING_STEP);
    TextsAppend([], c0.placed[0]);
    TextsAppend(c0.placed, c.placed[1]);
    FlowLinesTexts(c, wrap(SummaryText(r.raw)));
  }

  lemma TasksSectionTexts(s: Sheet, r: ProjectResult, wrap: string -> seq<string>)
    ensures Texts(TasksSection(s, r, wrap).placed) == Texts(s.placed) + [TASKS_HEADING] + AllTaskLines(r.tasks, 0, wrap)
  {
    var h := Put(NewPage(s), TASKS_HEADING, HEADING_STEP);
    TextsAppend(s.placed, h.placed[|s.placed|]);
    FlowTasksTexts(h, r.tasks, 0, wrap);
  }

  lemma TokenSectionTexts(s: Sheet, u: TokenUsage)
    ensures Texts(TokenSection(s, u).placed)
         == Texts(s.placed) + [TOKEN_HEADING, PromptLine(u), CompletionLine(u), TotalLine(u)]
  {
    var d1 := Put(NewPage(s), TOKEN_HEADING, HEADING_STEP);
    var d2 := Put(d1, PromptLine(u), LINE_STEP);
    var d3 := Put(d2, CompletionLine(u), LINE_STEP);
    var d4 := Put(d3, TotalLine(u), 0);
    TextsAppend(s.placed, d1.placed[|s.placed|]);
    TextsAppend(d1.placed, d2.placed[|d1.placed|]);
    TextsAppend(d2.placed, d3.placed[|d2.placed|]);
    TextsAppend(d3.placed, d4.placed[|d3.placed|]);
  }

  /** Paging neither loses nor reorders text: the report reads, in order,
      the title block, the summary (or the fallback text), the tasks
      numbered from 1, and the token usage. */
  lemma RenderTextStream(r: ProjectResult, wrap: string -> seq<string>)
    ensures Texts(Render(r, wrap).placed) == ReportText(r, wrap)
  {
    var s := SummarySection(r, wrap);
    var t := TasksSection(s, r, wrap);
    SummarySectionTexts(r, wrap);
    TasksSectionTexts(s, r, wrap);
    TokenSectionTexts(t, r.tokenUsage);
  }

  /** Every line of the report lies between the top margin and 301, the
      bottom limit plus the three unchecked label steps; the first section
      stays within the bottom limit. */
  lemma RenderBounds(r: ProjectResult, wrap: string -> seq<string>)
    ensures var d := Render(r, wrap).placed;
      forall k :: 0 <= k < |d| ==> TOP_MARGIN <= d[k].y <= BOTTOM_LIMIT + 3 * LINE_STEP
    ensures var d := Render(r, wrap).placed;
      var n := |SummarySection(r, wrap).placed|;
      n <= |d| && forall k :: 0 <= k < n ==> d[k].y <= BOTTOM_LIMIT
  {
    var c := Put(Put(Start(), TITLE, HEADING_STEP), REPORT_HEADING, HEADING_STEP);
    var lines := wrap(SummaryText(r.raw));
    var s := SummarySection(r, wrap);
    FlowLinesPositions(c, lines);
    FlowLinesEnds(c, lines);
    FlowLinesPrefix(c, lines);
    var h := Put(NewPage(s), TASKS_HEADING, HEADING_STEP);
    var t := TasksSection(s, r, wrap);
    FlowTasksBounds(h, r.tasks, 0, wrap);
    FlowTasksPrefix(h, r.tasks, 0, wrap);
    PrefixOfRender(r, wrap);
    var d := Render(r, wrap).placed;
    forall k | 0 <= k < |d| ensures TOP_MARGIN <= d[k].y <= BOTTOM_LIMIT + 3 * LINE_STEP && (k < |s.placed| ==> d[k].y <= BOTTOM_LIMIT) {
      if k < 2 {
      } else if k < |s.placed| {
        assert d[k] == s.placed[k] == s.placed[2 + (k - 2)];
      } else if k < |t.placed| {
        assert d[k] == t.placed[k];
      }
    }
  }

  /** The bound 301 is reached in a report: a first task with 14 body lines
      and four tasks without a body bring the cursor to exactly 280, so the
      fifth task's heading is at 280 and its "Expected Output" label at 301,
      both on the same page. */
  lemma ReportReaches301(r: ProjectResult, wrap: string -> seq<string>)
    requires |r.tasks| >= 5
    requires |TaskBody(r.tasks[0], wrap)| == 14
    requires forall j :: 1 <= j <= 4 ==> TaskBody(r.tasks[j], wrap) == []
    ensures var d := Render(r, wrap).placed;
      exists k :: 3 <= k < |d|
        && d[k] == Placement(d[k - 3].page, 301, "Expected Output: " + r.tasks[4].expectedOutput)
        && d[k - 3] == Placement(d[k].page, BOTTOM_LIMIT, TaskHeading(4))
  {
    var s := SummarySection(r, wrap);
    var h := Put(NewPage(s), TASKS_HEADING, HEADING_STEP);
    var ts := r.tasks;
    var b0 := TaskBlock(h, 0, ts[0], wrap);
    TaskBlockNoBreak(h, 0, ts[0], wrap);
    assert b0.y == 166;
    var b1 := TaskBlock(b0, 1, ts[1], wrap);
    assert TaskBody(ts[1], wrap) == [];
    TaskBlockNoBreak(b0, 1, ts[1], wrap);
    var b2 := TaskBlock(b1, 2, ts[2], wrap);
    assert TaskBody(ts[2], wrap) == [];
    TaskBlockNoBreak(b1, 2, ts[2], wrap);
    var b3 := TaskBlock(b2, 3, ts[3], wrap);
    assert TaskBody(ts[3], wrap) == [];
    TaskBlockNoBreak(b2, 3, ts[3], wrap);
    assert b3.y == BOTTOM_LIMIT;
    var b4 := TaskBlock(b3, 4, ts[4], wrap);
    ExpectedOutputReaches301(b3, 4, ts[4], wrap);
    assert FlowTasks(h, ts, 0, wrap) == FlowTasks(b4, ts, 5, wrap) by {
      assert FlowTasks(h, ts, 0, wrap) == FlowTasks(b0, ts, 1, wrap);
      assert FlowTasks(b0, ts, 1, wrap) == FlowTasks(b1, ts, 2, wrap);
      assert FlowTasks(b1, ts, 2, wrap) == FlowTasks(b2, ts, 3, wrap);
      assert FlowTasks(b2, ts, 3, wrap) == FlowTasks(b3, ts, 4, wrap);
    }
    FlowTasksPrefix(b4, ts, 5, wrap);
    PrefixOfRender(r, wrap);
    var d := Render(r, wrap).placed;
    var k := |b3.placed| + 3;
    assert d[k] == b4.placed[k] && d[k - 3] == b4.placed[k - 3];
  }

  /** A short report, every text fitting on one line: three pages, the
      summary on page 1, one task block with one body line on page 2, the
      token usage on page 3. */
  lemma ShortReportScenario()
    ensures var r := ProjectResult(Some("Short summary"), [TaskRecord("A", "D", "E", Some("done"))], TokenUsage(10, 5, 15));
      var R := Render(r, text => [text]);
      && R.pages == 3
      && R.placed == [Placement(1, 20, TITLE), Placement(1, 30, REPORT_HEADING), Placement(1, 40, "Short summary"),
                      Placement(2, 20, TASKS_HEADING), Placement(2, 30, "Task 1:"), Placement(2, 37, "Agent: A"),
                      Placement(2, 44, "Description: D"), Placement(2, 51, "Expected Output: E"), Placement(2, 58, "done"),
                      Placement(3, 20, TOKEN_HEADING), Placement(3, 30, "Prompt Tokens: 10"),
                      Placement(3, 37, "Completion Tokens: 5"), Placement(3, 44, "Total Tokens: 15")]
  {
    var t := TaskRecord("A", "D", "E", Some("done"));
    var r := ProjectResult(Some("Short summary"), [t], TokenUsage(10, 5, 15));
    var wrap := (text: string) => [text];
    var s := SummarySection(r, wrap);
    assert s == Sheet([Placement(1, 20, TITLE), Placement(1, 30, REPORT_HEADING), Placement(1, 40, "Short summary")], 1, 47, 0) by {
      var c := Put(Put(Start(), TITLE, HEADING_STEP), REPORT_HEADING, HEADING_STEP);
      assert wrap(SummaryText(r.raw)) == ["Short summary"];
      assert ["Short summary"][1..] == [];
      assert s == FlowLines(Put(c, "Short summary", LINE_STEP), []);
    }
    var h := Put(NewPage(s), TASKS_HEADING, HEADING_STEP);
    var b := TaskBlock(h, 0, t, wrap);
    assert b.placed == s.placed + [Placement(2, 20, TASKS_HEADING), Placement(2, 30, "Task 1:"), Placement(2, 37, "Agent: A"),
                                   Placement(2, 44, "Description: D"), Placement(2, 51, "Expected Output: E"),
                                   Placement(2, 58, "done")] && b.pages == 2 by {
      assert NatToString(1) == "1";
      assert TaskHeading(0) == "Task 1:";
      assert "Agent: " + "A" == "Agent: A";
      assert "Description: " + "D" == "Description: D";
      assert "Expected Output: " + "E" == "Expected Output: E";
      assert TaskLabels(0, t) == ["Task 1:", "Agent: A", "Description: D", "Expected Output: E"];
      var c4 := Put(Put(Put(Put(h, "Task 1:", LINE_STEP), "Agent: A", LINE_STEP), "Description: D", LINE_STEP), "Expected Output: E", LINE_STEP);
      assert LabelTask(h, 0, t) == c4;
      assert wrap(t.raw.value) == ["done"];
      assert ["done"][1..] == [];
      assert FlowLines(c4, ["done"]) == FlowLines(Put(c4, "done", LINE_STEP), []);
    }
    assert FlowTasks(h, r.tasks, 0, wrap) == b;
    assert PromptLine(r.tokenUsage) == "Prompt Tokens: 10" by {
      assert NatToString(10) == "10" by { assert NatToString(1) == "1" && NatToString(0) == "0"; }
    }
    assert CompletionLine(r.tokenUsage) == "Completion Tokens: 5";
    assert TotalLine(r.tokenUsage) == "Total Tokens: 15" by {
      assert NatToString(15) == "15" by { assert NatToString(1) == "1" && NatToString(5) == "5"; }
    }
  }
}
