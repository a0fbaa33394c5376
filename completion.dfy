/** The hosted chat-completion service as the dashboard sees it: it is sent
    a model name, an ordered list of role/content turns and a temperature, and
    either answers with a text or fails. Which of the two happens is not
    modelled; it is passed in as an `Outcome`. */
module Completion {

  datatype Role = System | User | Assistant

  datatype Turn = Turn(role: Role, content: string)

  const Model: string := "llama-3.3-70b-versatile"
  const Temperature: real := 0.7

  /** One call of `client.chat.completions.create`. */
  datatype Request = Request(model: string, messages: seq<Turn>, temperature: real)

  /** What the service did with a request: answered, or raised an exception. */
  datatype Outcome = Success(text: string) | Failure(error: string)

  /** Both call sites use the same fixed model and temperature. */
  function RequestFor(messages: seq<Turn>): Request {
    Request(Model, messages, Temperature)
  }
}

/** `generate_ai_commentary`: without a client it answers with a fixed notice
    and sends nothing; otherwise it sends one single-turn request and returns
    the service's text, or an error line if the call failed. The prompt is
    built from the summary's table text, which is not part of this model and
    is passed in. */
module AiCommentary {
  import opened Completion

  const InactiveNotice: string := "⚠️ AI Commentary tidak aktif (API Key belum diatur)."
  const ErrorPrefix: string := "❌ Error AI Commentary: "

  /** The text shown under "AI Commentary" and the requests sent to get it. */
  datatype AiReply = AiReply(text: string, sent: seq<Request>)

  function GenerateAiCommentary(clientPresent: bool, prompt: string, outcome: Outcome): (r: AiReply)
    ensures |r.sent| <= 1
    ensures r.sent == [] <==> !clientPresent
    ensures !clientPresent ==> r.text == InactiveNotice
    ensures clientPresent ==> r.sent[0].messages == [Turn(User, prompt)]
                              && r.sent[0].model == Model && r.sent[0].temperature == Temperature
    ensures clientPresent && outcome.Success? ==> r.text == outcome.text
    ensures clientPresent && outcome.Failure? ==>
              ErrorPrefix <= r.text && r.text[|ErrorPrefix|..] == outcome.error
  {
    if !clientPresent then
      AiReply(InactiveNotice, [])
    else
      var request := RequestFor([Turn(User, prompt)]);
      match outcome
      case Success(text) => AiReply(text, [request])
      case Failure(error) => AiReply(ErrorPrefix + error, [request])
  }

  /** Without a client the commentary is the same notice whatever the prompt
      (and so whatever the summary), and nothing is sent. */
  lemma InactiveIgnoresInput(p1: string, o1: Outcome, p2: string, o2: Outcome)
    ensures GenerateAiCommentary(false, p1, o1) == GenerateAiCommentary(false, p2, o2)
    ensures GenerateAiCommentary(false, p1, o1).sent == []
  {
  }
}
