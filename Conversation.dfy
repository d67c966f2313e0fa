/**
 * Conversation turns exchanged with the language model, the reporting months
 * offered by the month selector, and the prompt of the initial analysis.
 */
module Conversation {

  datatype Option<+T> = None | Some(value: T)

  /** The role a message plays in a chat-completion request. */
  datatype Role = System | User | Assistant

  /** One message of the conversation history. */
  datatype Turn = Turn(role: Role, content: string)

  /** The months the month selector offers; the selected month is always one of them. */
  const MonthOptions: seq<string> := ["2025-01", "2025-02", "2025-03", "2025-04"]

  /** Every offered month is written with exactly this many characters. */
  const MonthWidth := 7

  predicate ValidMonth(month: string) {
    month in MonthOptions
  }

  /** Every selectable month has MonthWidth characters, so parsers can read it as a fixed-width slice. */
  lemma ValidMonthWidth(month: string)
    requires ValidMonth(month)
    ensures |month| == MonthWidth
  {
  }

  // The fixed pieces of the prompt template around the month and the CSV text.
  const PromptHead := "Here is the CSV data for "
  const PromptSep := ":\n\n"
  const PromptTail := "\n\nPlease generate the structured insights as instructed."

  /**
   * The user prompt of the initial analysis: the month right after the fixed
   * opening, and the whole CSV export of its rows between the separator and
   * the closing instruction.
   */
  function Prompt(month: string, csv: string): (r: string)
    ensures |r| == |PromptHead| + |month| + |PromptSep| + |csv| + |PromptTail|
    ensures r[..|PromptHead|] == PromptHead
    ensures r[|PromptHead|..|PromptHead| + |month|] == month
    ensures r[|PromptHead| + |month|..|PromptHead| + |month| + |PromptSep|] == PromptSep
    ensures r[|PromptHead| + |month| + |PromptSep|..|r| - |PromptTail|] == csv
    ensures r[|r| - |PromptTail|..] == PromptTail
  {
    var r := PromptHead + (month + (PromptSep + (csv + PromptTail)));
    assert r[|PromptHead| + |month| + |PromptSep|..|r| - |PromptTail|] == csv;
    assert r == PromptHead + month + PromptSep + csv + PromptTail;
    r
  }

  /**
   * Reads the month and the CSV text back out of a prompt; None when the text
   * does not have the template's shape or names a month the selector does not offer.
   * The month is read as a slice of MonthWidth characters, the width of every
   * selectable month (ValidMonthWidth).
   */
  function ParsePrompt(p: string): Option<(string, string)> {
    var m := |PromptHead|;
    var c := m + MonthWidth + |PromptSep|;
    if |p| >= c + |PromptTail| && p[..m] == PromptHead && ValidMonth(p[m..m + MonthWidth])
       && p[m + MonthWidth..c] == PromptSep && p[|p| - |PromptTail|..] == PromptTail
    then Some((p[m..m + MonthWidth], p[c..|p| - |PromptTail|]))
    else None
  }

  /** The prompt determines the month and the CSV text it was built from. */
  lemma PromptRoundTrip(month: string, csv: string)
    requires ValidMonth(month)
    ensures ParsePrompt(Prompt(month, csv)) == Some((month, csv))
  {
  }

  /** Every text ParsePrompt accepts is the prompt of the month and CSV text it reads out. */
  lemma ParsePromptSound(p: string, month: string, csv: string)
    requires ParsePrompt(p) == Some((month, csv))
    ensures ValidMonth(month) && Prompt(month, csv) == p
  {
    var m := |PromptHead|;
    var c := m + MonthWidth + |PromptSep|;
    var t := |p| - |PromptTail|;
    assert p == p[..m] + p[m..m + MonthWidth] + p[m + MonthWidth..c] + p[c..t] + p[t..];
  }

  /**
   * The number of assistant turns in a history, counted from its end, the way
   * a follow-up appends them.
   */
  function Answers(h: seq<Turn>): (n: nat)
    ensures n <= |h|
  {
    if h == [] then 0
    else Answers(h[..|h| - 1]) + (if h[|h| - 1].role == Assistant then 1 else 0)
  }

  /**
   * The history a successful initial analysis leaves behind: the system
   * instructions, the prompt, and the model's reply.
   */
  function InitialHistory(systemMessage: string, month: string, csv: string, reply: string): (r: seq<Turn>)
    ensures |r| == 3 && r[0] == Turn(System, systemMessage) && r[2] == Turn(Assistant, reply)
    ensures r[1].role == User
    ensures ValidMonth(month) ==> ParsePrompt(r[1].content) == Some((month, csv))
    ensures Answers(r) == 1
  {
    var h := [Turn(System, systemMessage), Turn(User, Prompt(month, csv)), Turn(Assistant, reply)];
    assert h[..2][..1][..0] == [] && h[..2][..1] == [h[0]] && h[..2] == [h[0], h[1]];
    assert Answers(h[..2]) == 0;
    if ValidMonth(month) then PromptRoundTrip(month, csv); h else h
  }
}
