# Kimbell monthly marketing analysis: session model

The Kimbell insights app lets a user pick a reporting month. It pulls that month's
marketing rows from the warehouse as CSV text and sends them to a language model
with fixed system instructions. It shows the model's structured analysis and then
answers at most three follow-up questions about it. The user can reset the session
or export the conversation to a word-processor document.

This project models the part of the script that has rules of its own:

- the session state (`analysis_output`, `followup_count`, `conversation_history`);
- the run-analysis, follow-up and reset actions that change that state;
- the initial prompt template;
- the export of the history as a heading plus labelled paragraphs, and the export file name.

Files and modules:

- `Conversation.dfy` (module `Conversation`) holds the turn and role types and the four
  selectable months. It also holds `Prompt`, which builds the prompt, and its inverse
  `ParsePrompt`, and `InitialHistory`, the three turns a successful analysis stores.
- `TranscriptExport.dfy` (module `TranscriptExport`) holds the export document as a
  heading and a sequence of paragraphs. `Heading` gives the title. `Transcript` gives the
  paragraphs: one `Render`ed paragraph per user or assistant turn, in history order.
  `ParseTranscript` reads a transcript back. `ExportFilename` and its inverse
  `ParseFilename` handle the file name.
- `AnalysisSession.dfy` (module `AnalysisSession`) holds the class `Session`. Its fields
  are the three session-state entries. Its methods are the guarded actions, each with an
  `ensures` clause that gives the complete new state. `Export` builds the paragraphs with
  a loop, as the script does. The object invariant `Valid()` gives the shape of the
  history. A ghost counter, `unanswered`, counts follow-up questions whose model call
  failed. Two client methods state properties that span several actions: the follow-up
  quota, and the way an empty analysis blocks the session.

Outside inputs are parameters:

- the warehouse query result, given as its CSV text;
- each model reply, given as a string, or as `None` when a follow-up call fails;
- the export timestamp, given as the already formatted string;
- the system instructions, given as the constructor's `systemMessage`.

Behaviour kept as the code has it:

- The script appends a follow-up question to the history *before* it calls the model
  (kimbell_insights_ai_app.py:120-122). A failed call therefore leaves the question
  unanswered and does not advance the counter. The model follows the code:
  `Session.AskFollowup` with `reply == None` appends the question only.
- The run guard tests `analysis_output is None` (:74), while the display and follow-up
  guard tests its truthiness (:110). An empty reply is therefore stored, and it blocks
  both a second run and every follow-up until reset (`EmptyAnalysisBlocks`).
- Running the analysis does not reset `followup_count` (:101-107). The invariant shows
  the counter is already 0 whenever no analysis is stored, so `RunAnalysis` leaves it at 0.

## Model

| member | source | states |
|---|---|---|
| `AnalysisSession.Session.Valid` | kimbell_insights_ai_app.py:62-139 | The session invariant: the counter is in [0, 3]. With no analysis, the counter is 0 and the history is empty. With an analysis, the history is system, user(prompt), assistant(analysis), then the follow-up turns: 3 + 2·count + unanswered turns, every answer right after a question, no further system turn, and exactly count + 1 assistant turns (the analysis plus one answer per answered follow-up). Consequences: the history is empty exactly when no analysis is stored, and 2·count is at most the history length minus 3. |
| `AnalysisSession.Session.SessionTranscript` | kimbell_insights_ai_app.py:150-155 | In a valid session with an analysis, the export writes 2 + 2·count + unanswered paragraphs, and they read back as exactly the history after the system turn. |
| `AnalysisSession.Session.SessionSpoken` | kimbell_insights_ai_app.py:150-155 | In a valid session with an analysis, the turns the export shows are the whole history except the leading system turn. |
| `AnalysisSession.Session.CanRunAnalysis` | kimbell_insights_ai_app.py:74 | The run guard is `analysis_output is None`. In a valid session it holds only when the session is empty (count 0, no history). |
| `AnalysisSession.Session.ShowsAnalysis` | kimbell_insights_ai_app.py:110 | The display guard is the truthiness of the analysis (stored and non-empty). It never holds together with the run guard, and in a valid session it implies at least three turns. |
| `AnalysisSession.Session.CanAskFollowup` | kimbell_insights_ai_app.py:110-118 | A question is sent only when the analysis is shown, the count is below 3 and the question is non-empty. It never holds while the run guard holds, and an empty stored analysis or a used-up quota turns every question away. |
| `AnalysisSession.Session.constructor` | kimbell_insights_ai_app.py:62-67 | A fresh session has no analysis, a follow-up count of 0 and an empty history. It satisfies the session invariant and can run the analysis. |
| `AnalysisSession.Session.RunAnalysis` | kimbell_insights_ai_app.py:74-107 | Runs only when no analysis is stored. It then stores the reply and sets the history to exactly system, user(prompt of month and CSV), assistant(reply), with the counter at 0, and records the prompt the invariant refers to. Otherwise nothing changes. The invariant is kept. |
| `AnalysisSession.Session.AskFollowup` | kimbell_insights_ai_app.py:110-132 | Sends the question if and only if the analysis is a non-empty text, fewer than 3 follow-ups were answered and the question is non-empty. On success it appends the user question, then the assistant reply, and adds exactly 1 to the counter. On a failed call it appends only the question. Earlier turns and the analysis never change. The counter stays in [0, 3]. |
| `AnalysisSession.Session.Reset` | kimbell_insights_ai_app.py:136-139 | From any state, even one that breaks the invariant, clears the analysis, the counter and the history. The analysis can then run again. |
| `AnalysisSession.Session.Export` | kimbell_insights_ai_app.py:146-155 | The heading is "Marketing Analysis – " followed by the month. The paragraphs are the transcript of the history, in order. After an analysis there are 2 + 2·(answered follow-ups) + (unanswered questions) paragraphs, and they read back as exactly the history after the system turn. |
| `AnalysisSession.FollowupQuota` | kimbell_insights_ai_app.py:115-132 | Whatever the questions and replies, at most 3 follow-ups are answered between resets. With a non-empty analysis and non-empty, answered questions, exactly min(#questions, 3) are answered, and later questions are refused before any model call. |
| `AnalysisSession.EmptyAnalysisBlocks` | kimbell_insights_ai_app.py:74-139 | An empty analysis reply blocks a second run and every follow-up. After a reset the analysis runs again. |
| `Conversation.ValidMonthWidth` | kimbell_insights_ai_app.py:70 | Every selectable month is written with 7 characters. |
| `Conversation.Prompt` | kimbell_insights_ai_app.py:89 | The prompt is the fixed opening, then the month, then the separator and the CSV text, then the closing instruction. The month and the CSV text sit at those fixed places. |
| `Conversation.InitialHistory` | kimbell_insights_ai_app.py:103-107 | Exactly three turns: the system instructions, a user turn whose prompt reads back as the month and CSV text (for a selectable month), and the assistant reply. It holds exactly one assistant turn. |
| `Conversation.Answers` | kimbell_insights_ai_app.py:130-132 | Counts the assistant turns of a history (the answers the follow-up step appends); never more than the history's length. |
| `Conversation.PromptRoundTrip` | kimbell_insights_ai_app.py:89 | The prompt embeds the month and the CSV text so that both can be read back from it. |
| `Conversation.ParsePromptSound` | kimbell_insights_ai_app.py:89 | Every text that parses as a prompt is exactly the prompt of the month and CSV text read from it, and that month is selectable. |
| `TranscriptExport.Heading` | kimbell_insights_ai_app.py:148 | The heading is the fixed title "Marketing Analysis – " followed by exactly the month. |
| `TranscriptExport.Render` | kimbell_insights_ai_app.py:151-155 | A user or assistant turn becomes its label ("User:\n" or "Kimbell Analysis:\n") followed by its content. The paragraph reads back as the same role and content, so the two labels cannot be confused. |
| `TranscriptExport.Spoken` | kimbell_insights_ai_app.py:150-155 | The turns the export shows are exactly the history's user and assistant turns: a turn is shown if and only if it is in the history and is not a system turn. There are never more of them than history turns. |
| `TranscriptExport.SpokenAppend` | kimbell_insights_ai_app.py:150 | The shown turns keep history order: those of a joined history are those of the first part, then those of the second. |
| `TranscriptExport.SpokenNoSystem` | kimbell_insights_ai_app.py:150-155 | A history without system turns is shown whole and unchanged. |
| `TranscriptExport.Transcript` | kimbell_insights_ai_app.py:150-155 | The export writes at most one paragraph per turn. Every paragraph reads back as a user or assistant turn that is in the history. |
| `TranscriptExport.TranscriptAppend` | kimbell_insights_ai_app.py:150-155 | Exporting a history extended by more turns adds only the paragraphs of the added turns, after the earlier ones. |
| `TranscriptExport.TranscriptRendersSpoken` | kimbell_insights_ai_app.py:150-155 | There is exactly one paragraph per user or assistant turn. The i-th paragraph is the i-th such turn, labelled "User:\n" or "Kimbell Analysis:\n" by its role. |
| `TranscriptExport.TranscriptRoundTrip` | kimbell_insights_ai_app.py:150-155 | The exported paragraphs read back as exactly the history's user and assistant turns, in order. Only system turns are lost. |
| `TranscriptExport.NoSystemTranscript` | kimbell_insights_ai_app.py:150-155 | A history with no system turn has as many paragraphs as turns. |
| `TranscriptExport.TranscriptAfterSystem` | kimbell_insights_ai_app.py:150-155 | A history that starts with the system instructions and has no other system turn exports one paragraph fewer than it has turns. |
| `TranscriptExport.ExportFilename` | kimbell_insights_ai_app.py:161 | Every export file name starts with "Analysis_", ends with ".docx", and carries the month right after the prefix. |
| `TranscriptExport.FilenameRoundTrip` | kimbell_insights_ai_app.py:161 | The file name "Analysis_" + month + "_" + timestamp + ".docx" reads back as the month and the timestamp. |
| `TranscriptExport.ParseFilenameSound` | kimbell_insights_ai_app.py:161 | Every name that parses is exactly the export name of the month and timestamp read from it, and that month is selectable. |
| `TranscriptExport.FilenameInjective` | kimbell_insights_ai_app.py:161 | Exports for different months or at different timestamps never share a file name. |

## Left out

- Streamlit rendering, widgets, spinners, the rerun and the download button (kimbell_insights_ai_app.py:59, 71, 75-76, 111-112, 116, 133-134, 162-167) are presentation. The model starts where a widget has produced its value: the selected month, or the follow-up text.
- The BigQuery query and the DataFrame-to-CSV conversion (:79-86) are an external service and a library. The CSV text is a parameter of `RunAnalysis`.
- The OpenAI chat-completion calls (:91-99, 122-127) are a network service. Each reply is a parameter. The request parameters (model name, temperature, token caps) carry no behaviour the script checks.
- A failed warehouse query or failed initial model call raises before any session field is assigned (:84-101). It is the "nothing changes" case and is not a separate transition.
- A reply whose content is missing (Python `None`) is not modelled. Replies are strings.
- python-docx, `BytesIO` and saving the document (:147, 157-159) are a foreign library. A document is its heading and its paragraphs. The heading level is not modelled.
- `datetime.now().strftime` (:161) is the clock. The formatted timestamp is a parameter, and any string is accepted.
- Loading credentials and writing `gcp_key.json` (:10-14) are environment setup.
- The wording of `system_message` (:17-57) is an instruction to the model that the code does not enforce. It is the constructor parameter `systemMessage`.
- The month passed to `Session.Export` is whatever the selector shows when the export happens. It may differ from the month that was analysed, as in the script.
- The asynchronous assistant/thread variant with run polling belongs to other versions of the script. Those versions are not part of this model.
