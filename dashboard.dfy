/** One run of the dashboard script, from top to bottom, as it happens on
    every interaction: with no file nothing is analysed; with a file lacking
    a required column only a warning is shown; otherwise the summary is
    computed, the rule-based insight and the AI commentary are produced, the
    chat transcript is seeded if the session has none, and a submitted
    question is handled. */
module Dashboard {
  import opened Options
  import opened Aggregation
  import opened Commentary
  import opened Schema
  import opened Completion
  import opened AiCommentary
  import opened Chat

  /** An uploaded sheet after parsing: its column names and, read through the
      four required columns, its rows. */
  datatype Table = Table(columns: set<string>, rows: seq<Record>)

  /** What the analysis part of the page ends in. */
  datatype Page =
    | ColumnWarning
      // the sheet lacks a required column; nothing is analysed
    | IndexFailure(summary: seq<Summary>)
      // the summary has no first row, so `iloc[0]` raises and the run stops
      // after the chart
    | Analysis(summary: seq<Summary>, insight: Insight, ai: AiReply)

  /** The requests to the completion service made while rendering the page. */
  function PageRequests(p: Page): seq<Request> {
    if p.Analysis? then p.ai.sent else []
  }

  function RenderPage(t: Table, clientPresent: bool, prompt: string, aiOutcome: Outcome): (p: Page)
    ensures p.ColumnWarning? <==> !HasRequiredColumns(t.columns)
    ensures p.IndexFailure? <==> HasRequiredColumns(t.columns) && t.rows == []
    ensures p.IndexFailure? ==> p.summary == []
    ensures p.Analysis? ==>
              && IsSummaryOf(t.rows, p.summary)
              && p.summary != []
              && p.insight == RuleBased(p.summary)
              && p.ai == GenerateAiCommentary(clientPresent, prompt, aiOutcome)
    ensures |PageRequests(p)| <= 1
    ensures PageRequests(p) != [] <==> p.Analysis? && clientPresent
  {
    if !HasRequiredColumns(t.columns) then ColumnWarning
    else
      var summary := Aggregate(t.rows);
      assert IsSummaryOf(t.rows, summary) && (summary == [] <==> t.rows == []) by {
        AggregateIsSummary(t.rows);
        SummaryEmptyIffNoRows(t.rows, summary);
      }
      if summary == [] then IndexFailure(summary)
      else Analysis(summary, RuleBased(summary), GenerateAiCommentary(clientPresent, prompt, aiOutcome))
  }

  /** A question typed into the chat box; an empty one is not submitted. */
  predicate Asked(chatInput: Option<string>) {
    chatInput.Some? && chatInput.value != ""
  }

  /** One run of the script. The completion service's two possible answers
      (for the commentary and for the chat) are inputs. Returns the page, the
      chat notice if a question was handled, and every request sent. */
  method Rerun(session: ChatSession, upload: Option<Table>, clientPresent: bool, prompt: string,
               aiOutcome: Outcome, chatInput: Option<string>, chatOutcome: Outcome)
    returns (page: Option<Page>, notice: Option<Notice>, sent: seq<Request>)
    requires session.Valid()
    modifies session
    ensures session.Valid()
    ensures upload.None? ==> page.None?
    ensures upload.Some? ==> page == Some(RenderPage(upload.value, clientPresent, prompt, aiOutcome))
    ensures !(page.Some? && page.value.Analysis?) ==>
              && notice.None? && sent == []
              && session.seeded == old(session.seeded) && session.history == old(session.history)
    ensures page.Some? && page.value.Analysis? ==>
              var seededHistory := if old(session.seeded) then old(session.history)
                                   else SeedTranscript(page.value.ai.text);
              && session.seeded
              && (Asked(chatInput) ==>
                    && session.history == AfterQuestion(seededHistory, chatInput.value, clientPresent, chatOutcome)
                    && notice == Some(ChatNotice(clientPresent, chatOutcome))
                    && sent == page.value.ai.sent + ChatRequests(seededHistory, chatInput.value, clientPresent))
              && (!Asked(chatInput) ==>
                    session.history == seededHistory && notice.None? && sent == page.value.ai.sent)
  {
    notice := None;
    sent := [];
    if upload.None? {
      page := None;
      return;
    }
    var p := RenderPage(upload.value, clientPresent, prompt, aiOutcome);
    page := Some(p);
    if !p.Analysis? {
      return;
    }
    sent := p.ai.sent;
    session.Seed(p.ai.text);
    if Asked(chatInput) {
      var n, chatSent := session.Ask(chatInput.value, clientPresent, chatOutcome);
      notice := Some(n);
      sent := sent + chatSent;
    }
  }
}
