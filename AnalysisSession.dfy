/**
 * The analysis session of one browser session: the stored analysis, the number
 * of follow-up questions answered, and the conversation history, with the
 * run-analysis, follow-up, reset and export actions that change or read them.
 * The warehouse query, the language-model calls and the clock are outside the
 * model: their results (the CSV text, each reply, the timestamp) are parameters.
 */
module AnalysisSession {
  import opened Conversation
  import opened TranscriptExport

  /** The number of follow-up questions a session answers before it must be reset. */
  const MaxFollowups := 3

  class Session {
    /** The system instructions sent with every request; their wording carries no behaviour here. */
    const systemMessage: string

    var analysisOutput: Option<string>
    var followupCount: int
    var history: seq<Turn>

    /** The follow-up questions whose inference call failed, each left in the history unanswered. */
    ghost var unanswered: nat

    /** The prompt of the stored analysis. */
    ghost var prompt: string

    /**
     * The session invariant: the counter stays within the quota; a session
     * without an analysis has nothing else either; a session with one holds
     * the three initial turns, then two turns per answered follow-up and one
     * per failed one, each answer right after a question, and no further
     * system turn; besides the analysis, the history holds exactly one
     * assistant turn per answered follow-up.
     */
    ghost predicate Valid()
      reads this
      ensures Valid() ==> (history == [] <==> analysisOutput.None?)
      ensures Valid() && analysisOutput.Some? ==> 2 * followupCount <= |history| - 3
    {
      && 0 <= followupCount <= MaxFollowups
      && (analysisOutput.None? ==> followupCount == 0 && unanswered == 0 && history == [])
      && (analysisOutput.Some? ==>
            && |history| == 3 + 2 * followupCount + unanswered
            && history[0] == Turn(System, systemMessage)
            && history[1] == Turn(User, prompt)
            && history[2] == Turn(Assistant, analysisOutput.value)
            && (forall i :: 1 <= i < |history| ==> history[i].role != System)
            && (forall i :: 3 <= i < |history| && history[i].role == Assistant ==> history[i - 1].role == User)
            && Answers(history) == followupCount + 1)
    }

    /** In a session with an analysis, the export shows every turn but the system instructions. */
    lemma SessionSpoken()
      requires Valid() && analysisOutput.Some?
      ensures Spoken(history) == history[1..]
    {
      assert history == [history[0]] + history[1..];
      SpokenNoSystem(history[1..]);
    }

    /**
     * In a session with an analysis, the transcript has two paragraphs, two more
     * per answered follow-up and one per unanswered question, and reads back as
     * every turn but the system instructions.
     */
    lemma SessionTranscript()
      requires Valid() && analysisOutput.Some?
      ensures |Transcript(history)| == 2 + 2 * followupCount + unanswered
      ensures ParseTranscript(Transcript(history)) == Some(history[1..])
    {
      TranscriptAfterSystem(history);
      TranscriptRoundTrip(history);
      SessionSpoken();
    }

    /** The "Run Analysis" button is offered only while no analysis is stored, that is, in an empty session. */
    predicate CanRunAnalysis()
      reads this
      ensures Valid() && CanRunAnalysis() ==> followupCount == 0 && history == []
    {
      analysisOutput.None?
    }

    /**
     * The analysis is shown, and follow-ups offered, only when it is a non-empty
     * text; never while the analysis can be run.
     */
    predicate ShowsAnalysis()
      reads this
      ensures ShowsAnalysis() ==> !CanRunAnalysis()
      ensures Valid() && ShowsAnalysis() ==> |history| >= 3
    {
      analysisOutput.Some? && analysisOutput.value != ""
    }

    /**
     * A question is sent when the analysis is shown, the quota is not used up and
     * the question is not empty; an empty analysis or a used-up quota turns every
     * question away.
     */
    predicate CanAskFollowup(question: string)
      reads this
      ensures CanAskFollowup(question) ==> !CanRunAnalysis()
      ensures analysisOutput == Some("") || followupCount >= MaxFollowups ==> !CanAskFollowup(question)
    {
      ShowsAnalysis() && followupCount < MaxFollowups && question != ""
    }

    /** A fresh session: no analysis, no follow-ups, no history. */
    constructor (systemMessage: string)
      ensures Valid()
      ensures this.systemMessage == systemMessage
      ensures analysisOutput == None && followupCount == 0 && history == []
      ensures CanRunAnalysis()
    {
      this.systemMessage := systemMessage;
      analysisOutput := None;
      followupCount := 0;
      history := [];
      unanswered := 0;
      prompt := "";
    }

    /**
     * Runs the initial analysis of the month's CSV export, given the model's
     * reply. Nothing happens once an analysis is stored, even an empty one.
     */
    method RunAnalysis(month: string, csv: string, reply: string) returns (ran: bool)
      requires Valid()
      modifies this
      ensures Valid()
      ensures ran == old(CanRunAnalysis())
      ensures ran ==> analysisOutput == Some(reply) && followupCount == 0 && unanswered == 0
      ensures ran ==> prompt == Prompt(month, csv)
      ensures ran ==> history == InitialHistory(systemMessage, month, csv, reply)
      ensures !ran ==> analysisOutput == old(analysisOutput) && followupCount == old(followupCount)
                       && history == old(history) && unanswered == old(unanswered) && prompt == old(prompt)
    {
      ran := analysisOutput.None?;
      if ran {
        var userPrompt := Prompt(month, csv);
        prompt := userPrompt;
        analysisOutput := Some(reply);
        history := [Turn(System, systemMessage), Turn(User, userPrompt), Turn(Assistant, reply)];
        assert history == InitialHistory(systemMessage, month, csv, reply);
      }
    }

    /**
     * Asks a follow-up question. The question is appended to the history before
     * the model is called; `reply` is the model's answer, or None when the call
     * failed, which leaves the question in the history unanswered and the
     * counter where it was.
     */
    method AskFollowup(question: string, reply: Option<string>) returns (asked: bool)
      requires Valid()
      modifies this
      ensures Valid()
      ensures asked == old(CanAskFollowup(question))
      ensures analysisOutput == old(analysisOutput) && prompt == old(prompt)
      ensures asked && reply.Some? ==>
                && history == old(history) + [Turn(User, question), Turn(Assistant, reply.value)]
                && followupCount == old(followupCount) + 1
                && unanswered == old(unanswered)
      ensures asked && reply.None? ==>
                && history == old(history) + [Turn(User, question)]
                && followupCount == old(followupCount)
                && unanswered == old(unanswered) + 1
      ensures !asked ==> history == old(history) && followupCount == old(followupCount)
                         && unanswered == old(unanswered)
    {
      asked := CanAskFollowup(question);
      if asked {
        ghost var before := history;
        history := history + [Turn(User, question)];
        assert history[..|before|] == before;
        assert Answers(history) == Answers(before);
        if reply.Some? {
          ghost var asked := history;
          history := history + [Turn(Assistant, reply.value)];
          assert history[..|asked|] == asked;
          followupCount := followupCount + 1;
        } else {
          unanswered := unanswered + 1;
        }
        assert history[..|before|] == before;
        assert history[|before|].role == User;
      }
    }

    /** Clears the session from any state, after which the analysis can be run again. */
    method Reset()
      modifies this
      ensures Valid()
      ensures analysisOutput == None && followupCount == 0 && history == []
      ensures CanRunAnalysis()
    {
      analysisOutput := None;
      followupCount := 0;
      history := [];
      unanswered := 0;
      prompt := "";
    }

    /**
     * Exports the conversation: the month's heading, then one labelled
     * paragraph per user or assistant turn in history order. After an
     * analysis that is two paragraphs, two more per answered follow-up and
     * one per unanswered question, and they read back as every turn but the
     * system instructions.
     */
    method Export(month: string) returns (doc: Document)
      ensures doc.heading == Heading(month)
      ensures doc.paragraphs == Transcript(history)
      ensures Valid() && analysisOutput.Some? ==>
                |doc.paragraphs| == 2 + 2 * followupCount + unanswered
      ensures Valid() && analysisOutput.Some? ==> ParseTranscript(doc.paragraphs) == Some(history[1..])
    {
      var paragraphs: seq<string> := [];
      for i := 0 to |history|
        invariant paragraphs == Transcript(history[..i])
      {
        var turn := history[i];
        assert history[..i + 1] == history[..i] + [turn];
        TranscriptAppend(history[..i], [turn]);
        assert Transcript([turn]) == if turn.role == System then [] else [Render(turn)] by {
          assert [turn][1..] == [];
        }
        if turn.role == User {
          paragraphs := paragraphs + [UserLabel + turn.content];
        } else if turn.role == Assistant {
          paragraphs := paragraphs + [AssistantLabel + turn.content];
        }
      }
      assert history[..|history|] == history;
      doc := Document(Heading(month), paragraphs);
      if Valid() && analysisOutput.Some? {
        SessionTranscript();
      }
    }
  }

  /**
   * However the questions and the model's answers go, a session answers at most
   * MaxFollowups follow-ups after its analysis; when the analysis is not empty
   * and every question is non-empty and answered, it answers exactly that many
   * of them, and any later question is turned away before the model is called.
   */
  method FollowupQuota(systemMessage: string, month: string, csv: string, analysis: string,
                       questions: seq<string>, replies: seq<Option<string>>)
    returns (answered: nat)
    requires |replies| == |questions|
    ensures answered <= MaxFollowups
    ensures analysis != "" && (forall i :: 0 <= i < |questions| ==> questions[i] != "" && replies[i].Some?) ==>
              answered == if |questions| < MaxFollowups then |questions| else MaxFollowups
  {
    var session := new Session(systemMessage);
    var ran := session.RunAnalysis(month, csv, analysis);
    answered := 0;
    for i := 0 to |questions|
      invariant session.Valid()
      invariant answered == session.followupCount
      invariant session.analysisOutput == Some(analysis)
      invariant analysis != "" && (forall j :: 0 <= j < |questions| ==> questions[j] != "" && replies[j].Some?) ==>
                  answered == if i < MaxFollowups then i else MaxFollowups
    {
      var asked := session.AskFollowup(questions[i], replies[i]);
      if asked && replies[i].Some? {
        answered := answered + 1;
      }
    }
  }

  /**
   * An empty reply to the initial analysis is stored, so it blocks both a second
   * run and every follow-up until the session is reset; after the reset the
   * analysis runs again.
   */
  method EmptyAnalysisBlocks(systemMessage: string, month: string, csv: string,
                             question: string, answer: string, retry: string)
    returns (reran: bool, asked: bool, ranAfterReset: bool)
    ensures !reran && !asked && ranAfterReset
  {
    var session := new Session(systemMessage);
    var ran := session.RunAnalysis(month, csv, "");
    reran := session.RunAnalysis(month, csv, retry);
    asked := session.AskFollowup(question, Some(answer));
    session.Reset();
    ranAfterReset := session.RunAnalysis(month, csv, retry);
  }
}
