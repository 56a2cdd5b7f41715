# Project-management dashboard: report layout and submit lifecycle

This project models the one page of the dashboard (`src/components/Home/Home.jsx`).
The page sends free-text project details to a project-management service.
The service returns a result record: a summary, a list of task records and token-usage counters.
On request, the page lays that record out as a multi-page document.

The model has five modules:

- `ReportData` — the result record (`ProjectResult`, `TaskRecord`, `TokenUsage`).
  It also holds JavaScript truthiness of an optional text (`Truthy`) and the decimal text of a counter (`NatToString`).
- `Layout` — the layout routine as pure functions over a layout state `Sheet`.
  A `Sheet` holds the placements so far, the page count, the cursor `y` and a count of overflow breaks.
  `Render` is the whole report.
  The document is the sequence of its text placements `(page, y, text)` in the order they are issued.
  The routine never goes back to an earlier page, so every text call writes on the newest page.
- `Pdf` — the imperative side.
  A `Doc` class has `AddPage` and `Text` methods.
  The routine `GeneratePdf` moves a cursor `y` down the page with `while` loops over the wrapped lines and the tasks.
  It is proved to build exactly the document `Render` describes.
- `LayoutFacts` — what the layout guarantees, proved about `Render` and its parts:
  - positions of the fixed lines
  - the overflow rule for wrapped lines
  - the one overflow check per task and the 301 bound it leaves
  - page counts
  - that paging neither loses nor reorders text
  - a complete short-report example
- `Submission` — the page's state cells (`projectDetails`, `response`, `loading`, `error`) as a `Dashboard` class.
  It has the input handler, the two halves of a submit, and the download control.

Word wrapping at the content width (`splitTextToSize`) is a parameter `wrap: string -> seq<string>` throughout.
Every layout property holds for any wrapper.

## Model

| member | source | states |
|---|---|---|
| `Pdf.Doc.constructor` | src/components/Home/Home.jsx:32 | a new document has one page and no text |
| `Pdf.Doc.AddPage` | src/components/Home/Home.jsx:57 | adding a page increments the page count and keeps all text |
| `Pdf.Doc.Text` | src/components/Home/Home.jsx:37 | a text call appends one placement on the current (last) page at the given height |
| `Pdf.WriteLines` | src/components/Home/Home.jsx:47-54 | the wrapped-line loop builds exactly `FlowLines`: overflow check, line, step of 7, for each line |
| `Pdf.WriteTask` | src/components/Home/Home.jsx:62-90 | one task iteration builds exactly `TaskBlock`: one overflow check, four labels, the body if `raw` is truthy, then the gap of 10 |
| `Pdf.GeneratePdf` | src/components/Home/Home.jsx:31-102 | the routine's document (placements and page count) is exactly `Render` of the result |
| `LayoutFacts.FlowLinesPrefix` | src/components/Home/Home.jsx:47-54 | wrapped lines only append; pages are added only by overflow breaks |
| `LayoutFacts.FlowLinesTexts` | src/components/Home/Home.jsx:47-54 | every wrapped line is written once, in order |
| `LayoutFacts.FlowLinesEnds` | src/components/Home/Home.jsx:47-54 | the first line goes at the cursor, or at 20 on exactly one new page when the cursor is past 280; the cursor ends 7 below the last line, on its page |
| `LayoutFacts.FlowLinesPositions` | src/components/Home/Home.jsx:47-54 | every wrapped line lies between 20 and 280 and carries its own text |
| `LayoutFacts.FlowLinesSteps` | src/components/Home/Home.jsx:79-86 | each wrapped line after the first is 7 below the previous one, or at 20 on the next page when that step would pass 280 |
| `LayoutFacts.FlowLinesNoBreak` | src/components/Home/Home.jsx:47-54 | wrapped lines that all fit above 280 add no page and move the cursor 7 per line |
| `LayoutFacts.FlowLinesPageCount` | src/components/Home/Home.jsx:47-54 | pages added by `n` wrapped lines from cursor `y`, in closed form: none if they fit, else one plus one per further 38 lines |
| `LayoutFacts.FlowLinesFlowing` | src/components/Home/Home.jsx:47-54 | wrapped lines keep the document contiguous: pages in order, none skipped, each starting at 20 |
| `LayoutFacts.LabelTaskLayout` | src/components/Home/Home.jsx:63-75 | a task's four labels ("Task i+1:", agent, description, expected output) go at y0, y0+7, y0+14, y0+21 on one page, where y0 is at most 280 after the single check |
| `LayoutFacts.TaskBlockLayout` | src/components/Home/Home.jsx:77-89 | body lines appear only for a truthy `raw`, each at most 280; when there are no body lines (`raw` falsy, or wrapping to nothing) the task adds only its labels and no page; the cursor always gains the extra 10 |
| `LayoutFacts.TaskBlockBounds` | src/components/Home/Home.jsx:63-89 | every line of a task lies between 20 and 301 |
| `LayoutFacts.TaskBlockPrefix` | src/components/Home/Home.jsx:62-90 | a task only appends; pages are added only by overflow breaks |
| `LayoutFacts.TaskBlockTexts` | src/components/Home/Home.jsx:68-86 | a task writes its four labels and then its body lines, in order |
| `LayoutFacts.TaskBlockFlowing` | src/components/Home/Home.jsx:62-90 | a task keeps the document contiguous |
| `LayoutFacts.FlowTasksPrefix` | src/components/Home/Home.jsx:62-90 | the task loop only appends; pages are added only by overflow breaks |
| `LayoutFacts.FlowTasksTexts` | src/components/Home/Home.jsx:62-90 | tasks are written in input order, task i under the label "Task i+1:" |
| `LayoutFacts.FlowTasksFlowing` | src/components/Home/Home.jsx:62-90 | the task loop keeps the document contiguous |
| `LayoutFacts.FlowTasksBounds` | src/components/Home/Home.jsx:62-90 | every line of the task section lies between 20 and 301 |
| `LayoutFacts.ExpectedOutputReaches301` | src/components/Home/Home.jsx:63-75 | the bound 301 is reached: with the cursor at 280 there is no break, the heading goes at 280 and the "Expected Output" label at 301, both on the current page |
| `LayoutFacts.TaskBlockNoBreak` | src/components/Home/Home.jsx:63-89 | a task whose labels and body fit above 280 adds no page and moves the cursor by 28, 7 per body line, and the gap of 10 |
| `LayoutFacts.SummaryFlowing` | src/components/Home/Home.jsx:33-54 | the first page and the summary form a contiguous document ending on the current page |
| `LayoutFacts.TasksFlowing` | src/components/Home/Home.jsx:56-90 | after the task section the document is still contiguous, with two pages plus one per break so far, and the task section opened a new page |
| `LayoutFacts.TitleBlock` | src/components/Home/Home.jsx:33-46 | title at 20 and report heading at 30 on page 1; the first summary line at 40 on page 1 |
| `LayoutFacts.PrefixOfRender` | src/components/Home/Home.jsx:56-101 | each section only appends to the one before; the token section adds exactly four lines |
| `LayoutFacts.TasksHeadingOnFreshPage` | src/components/Home/Home.jsx:57-60 | "Tasks Output" always opens the page after the last summary line, at 20, whatever the cursor was |
| `LayoutFacts.TokenUsageLastPage` | src/components/Home/Home.jsx:93-101 | the last page holds exactly the token heading at 20 and the three counters at 30, 37 and 44; it follows the previous page directly |
| `LayoutFacts.RenderContiguous` | src/components/Home/Home.jsx:31-102 | no page is skipped or left blank, each page starts at 20, lines go down each page, and the last line is on the last page |
| `LayoutFacts.RenderPageCount` | src/components/Home/Home.jsx:57-60 | the report has three pages plus one per overflow break |
| `LayoutFacts.SummaryPageCount` | src/components/Home/Home.jsx:43-54 | the summary fills page 1 with 35 lines, then 38 per further page |
| `LayoutFacts.SummarySectionTexts` | src/components/Home/Home.jsx:37-54 | the first section reads: title, report heading, the wrapped summary or the fallback "No data available." |
| `LayoutFacts.TasksSectionTexts` | src/components/Home/Home.jsx:59-90 | the task section reads: "Tasks Output", then every task's lines in order |
| `LayoutFacts.TokenSectionTexts` | src/components/Home/Home.jsx:95-101 | the token section reads: "Token Usage", then the prompt, completion and total lines |
| `LayoutFacts.RenderTextStream` | src/components/Home/Home.jsx:31-102 | the whole report, read in order, is the reference text stream: paging loses and reorders nothing |
| `LayoutFacts.RenderBounds` | src/components/Home/Home.jsx:31-102 | every line of the report lies between 20 and 301; every line of the first section is at most 280 |
| `LayoutFacts.ReportReaches301` | src/components/Home/Home.jsx:62-90 | in a whole report, a first task with 14 body lines and four tasks without a body put the fifth task's heading at 280 and its "Expected Output" label at 301 on the same page |
| `LayoutFacts.ShortReportScenario` | src/components/Home/Home.jsx:31-102 | a one-task result with one-line texts gives exactly three pages and these 13 placements |
| `Submission.Dashboard.constructor` | src/components/Home/Home.jsx:6-9 | initially: empty details, no response, not loading, no error |
| `Submission.Dashboard.HandleChange` | src/components/Home/Home.jsx:11-13 | typing replaces the details and nothing else |
| `Submission.Dashboard.BeginSubmit` | src/components/Home/Home.jsx:17-22 | a submit sets loading, clears the error, keeps the earlier response and sends the current details |
| `Submission.Dashboard.Settle` | src/components/Home/Home.jsx:23-28 | success replaces the response; failure sets the fixed message and keeps the response; loading ends either way |
| `Submission.Dashboard.HandleSubmit` | src/components/Home/Home.jsx:15-29 | a whole submit: the error is cleared on success, the fixed message is shown on failure, and the response is kept on failure |
| `Submission.Dashboard.DownloadReport` | src/components/Home/Home.jsx:133-140 | the download control exists only with a response, and renders that response |
| `Submission.FailedResubmitKeepsReport` | src/components/Home/Home.jsx:15-29 | after a success and then a failure, the first report stays downloadable alongside the error message |

## Two behaviours a reader might not expect

- One might expect each task label line to be checked for overflow, so that no line is ever rendered below 280.
  The code checks once per task, before "Task N:".
  The model follows the code: label lines can reach 301 (`ExpectedOutputReaches301`, and in a whole report `ReportReaches301`), past the bottom of a 297-unit A4 page.
  Wrapped lines and the task heading stay within 280.
- One might expect the page to be in exactly one of four phases (idle, loading, error, success), with a new submit clearing the old result.
  The code never clears `response`.
  After a failed resubmit, the old response and the error message are both present, and the report can still be downloaded (`FailedResubmitKeepsReport`).

## Left out

- The network call (`axios.post`): its outcome is the parameter `Outcome` (success with a payload, or failure).
- The internals of `splitTextToSize`: wrapping is the parameter `wrap`.
- Font sizes and the fixed x coordinate 14: they do not affect the vertical layout.
- `doc.save`: it only writes the file.
- JSX rendering, styling and `event.preventDefault`: these are UI.
  Only the condition that shows the download control is modelled (`CanDownload`).
- Overlapping submits: the model runs one submit at a time.
  The code disables the button while loading but has no other guard, and interleaving is a concurrency question.
- Response shape validation: `tasks` and `tokenUsage` are always present in `ProjectResult`, which is what the renderer assumes.
  Counters are `nat`, and `raw` is an optional string.
  Non-string values and JavaScript number formatting (fractions, exponents) are not modelled.
- React state batching: each state update takes effect at once.
  The model keeps the order in which the handler issues the updates.
