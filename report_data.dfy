/** The result record returned by the project-management service and the
    few value-level helpers the report needs (JavaScript truthiness of an
    optional text, and the decimal rendering of a counter in a template
    literal). */
module ReportData {

  datatype Option<T> = None | Some(value: T)

  /** One entry of `tasks_output`. `raw` is the optional body text. */
  datatype TaskRecord = TaskRecord(
    agent: string,
    description: string,
    expectedOutput: string,
    raw: Option<string>)

  /** The `token_usage` record: three non-negative counters. */
  datatype TokenUsage = TokenUsage(promptTokens: nat, completionTokens: nat, totalTokens: nat)

  /** The response payload. `tasks` and `tokenUsage` are always present,
      which is what the renderer assumes of the payload. */
  datatype ProjectResult = ProjectResult(
    raw: Option<string>,
    tasks: seq<TaskRecord>,
    tokenUsage: TokenUsage)

  /** JavaScript truthiness of an optional string: absent and "" are falsy. */
  predicate Truthy(text: Option<string>) {
    text.Some? && text.value != ""
  }

  function DigitChar(d: nat): (c: char)
    requires d < 10
    ensures '0' <= c <= '9'
  {
    (('0' as int) + d) as char
  }

  /** Decimal text of a non-negative integer, as a template literal prints it. */
  function NatToString(n: nat): (s: string)
    ensures |s| > 0
    ensures forall k :: 0 <= k < |s| ==> '0' <= s[k] <= '9'
    decreases n
  {
    if n < 10 then [DigitChar(n)] else NatToString(n / 10) + [DigitChar(n % 10)]
  }
}
