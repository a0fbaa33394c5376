/** The chat with the "AI consultant". The transcript lives in the session:
    it is created once, as a system priming turn followed by the AI
    commentary, and each question then appends a user turn and, when a client
    exists and the call succeeds, the service's answer. The whole transcript,
    including the new question, is what is sent to the service. */
module Chat {
  import opened Completion

  const SystemPriming: string :=
    "Anda adalah konsultan tambak udang yang menganalisis data keuangan dan produksi."
  const ChatErrorPrefix: string := "❌ Error chat: "
  const ChatInactiveWarning: string := "AI chat tidak aktif — tambahkan GROQ_API_KEY di .env"

  /** What is shown below the question besides the transcript. */
  datatype Notice = Answer(text: string) | ErrorNotice(text: string) | WarningNotice(text: string)

  /** The shape every transcript keeps: the priming turn, the commentary as
      an assistant turn, then only user and assistant turns. */
  predicate WellFormed(t: seq<Turn>) {
    && |t| >= 2
    && t[0] == Turn(System, SystemPriming)
    && t[1].role == Assistant
    && forall i :: 2 <= i < |t| ==> t[i].role != System
  }

  function SeedTranscript(aiText: string): (t: seq<Turn>)
    ensures WellFormed(t) && |t| == 2 && t[1].content == aiText
  {
    [Turn(System, SystemPriming), Turn(Assistant, aiText)]
  }

  /** The transcript after one question. */
  function AfterQuestion(t: seq<Turn>, question: string, clientPresent: bool, outcome: Outcome): (r: seq<Turn>)
    ensures |t| < |r| <= |t| + 2
    ensures r[..|t|] == t
    ensures r[|t|] == Turn(User, question)
    ensures |r| == |t| + 2 <==> clientPresent && outcome.Success?
    ensures |r| == |t| + 2 ==> r[|t| + 1] == Turn(Assistant, outcome.text)
    ensures WellFormed(t) ==> WellFormed(r)
  {
    var asked := t + [Turn(User, question)];
    if clientPresent && outcome.Success? then asked + [Turn(Assistant, outcome.text)] else asked
  }

  /** The requests one question causes: none without a client, otherwise the
      whole transcript with the question appended. */
  function ChatRequests(t: seq<Turn>, question: string, clientPresent: bool): (sent: seq<Request>)
    ensures |sent| <= 1 && (sent != [] <==> clientPresent)
    ensures sent != [] ==> sent[0].messages == t + [Turn(User, question)]
    ensures sent != [] ==> sent[0].model == Model && sent[0].temperature == Temperature
  {
    if clientPresent then [RequestFor(t + [Turn(User, question)])] else []
  }

  function ChatNotice(clientPresent: bool, outcome: Outcome): (n: Notice)
    ensures !clientPresent ==> n == WarningNotice(ChatInactiveWarning)
    ensures clientPresent && outcome.Success? ==> n == Answer(outcome.text)
    ensures clientPresent && outcome.Failure? ==>
              n.ErrorNotice? && ChatErrorPrefix <= n.text && n.text[|ChatErrorPrefix|..] == outcome.error
  {
    if !clientPresent then WarningNotice(ChatInactiveWarning)
    else match outcome
      case Success(text) => Answer(text)
      case Failure(error) => ErrorNotice(ChatErrorPrefix + error)
  }

  // ---------------------------------------------------------------------------
  // A whole conversation
  // ---------------------------------------------------------------------------

  /** One question with what the environment did about it. */
  datatype Exchange = Exchange(question: string, clientPresent: bool, outcome: Outcome)

  function Replay(t: seq<Turn>, xs: seq<Exchange>): seq<Turn>
    decreases xs
  {
    if xs == [] then t
    else Replay(AfterQuestion(t, xs[0].question, xs[0].clientPresent, xs[0].outcome), xs[1..])
  }

  function CountRole(t: seq<Turn>, role: Role): nat {
    if t == [] then 0 else (if t[0].role == role then 1 else 0) + CountRole(t[1..], role)
  }

  /** The number of exchanges that got an answer. */
  function Answered(xs: seq<Exchange>): nat {
    if xs == [] then 0
    else (if xs[0].clientPresent && xs[0].outcome.Success? then 1 else 0) + Answered(xs[1..])
  }

  /** Over any number of questions the transcript only grows at its end: it
      keeps its shape, gains exactly one user turn per question and one
      assistant turn per answered question, and nothing else. */
  lemma {:induction false} ReplayAppendsOnly(t: seq<Turn>, xs: seq<Exchange>)
    ensures var r := Replay(t, xs);
      && |r| == |t| + |xs| + Answered(xs)
      && r[..|t|] == t
      && (WellFormed(t) ==> WellFormed(r))
      && CountRole(r, User) == CountRole(t, User) + |xs|
      && CountRole(r, Assistant) == CountRole(t, Assistant) + Answered(xs)
      && CountRole(r, System) == CountRole(t, System)
    decreases xs
  {
    if xs != [] {
      var x := xs[0];
      var t' := AfterQuestion(t, x.question, x.clientPresent, x.outcome);
      ReplayAppendsOnly(t', xs[1..]);
      var r := Replay(t', xs[1..]);
      assert r[..|t|] == r[..|t'|][..|t|];
      var added := t'[|t|..];
      assert t' == t + added;
      CountAppend(t, added, User);
      CountAppend(t, added, Assistant);
      CountAppend(t, added, System);
      if x.clientPresent && x.outcome.Success? {
        assert added == [Turn(User, x.question), Turn(Assistant, x.outcome.text)];
        assert added[1..] == [Turn(Assistant, x.outcome.text)] && added[1..][1..] == [];
        assert CountRole(added[1..], Assistant) == 1 && CountRole(added[1..], System) == 0;
        assert CountRole(added[1..], User) == 0;
        assert CountRole(added, Assistant) == 1 && CountRole(added, System) == 0;
        assert CountRole(added, User) == 1;
      } else {
        assert added == [Turn(User, x.question)];
        assert added[1..] == [];
      }
    }
  }

  lemma {:induction false} CountAppend(a: seq<Turn>, b: seq<Turn>, role: Role)
    ensures CountRole(a + b, role) == CountRole(a, role) + CountRole(b, role)
  {
    if a == [] {
      assert a + b == b;
    } else {
      assert (a + b)[1..] == a[1..] + b;
      CountAppend(a[1..], b, role);
    }
  }

  /** The scenario of a failing service: after seeding with T, a question X
      whose call fails leaves [system, assistant(T), user(X)]. */
  lemma FailedQuestionKeepsOnlyUserTurn(aiText: string, question: string, error: string)
    ensures AfterQuestion(SeedTranscript(aiText), question, true, Failure(error))
         == [Turn(System, SystemPriming), Turn(Assistant, aiText), Turn(User, question)]
  {
  }

  // ---------------------------------------------------------------------------
  // The session-held transcript
  // ---------------------------------------------------------------------------

  /** `st.session_state.chat_history`: absent until seeded, then a list that
      questions append to in place. */
  class ChatSession {
    var seeded: bool
    var history: seq<Turn>

    predicate Valid()
      reads this
    {
      (seeded ==> WellFormed(history)) && (!seeded ==> history == [])
    }

    /** A fresh session has no transcript yet. */
    constructor ()
      ensures Valid() && !seeded
    {
      seeded := false;
      history := [];
    }

    /** Creates the transcript from the AI commentary unless it exists already. */
    method Seed(aiText: string)
      requires Valid()
      modifies this
      ensures Valid() && seeded
      ensures history == if old(seeded) then old(history) else SeedTranscript(aiText)
    {
      if !seeded {
        history := [Turn(System, SystemPriming), Turn(Assistant, aiText)];
        seeded := true;
      }
    }

    /** One question: appends the user turn, then asks the service (when there
        is a client) with the whole transcript, and appends its answer if it
        gave one. Returns what is shown and the requests sent. */
    method Ask(question: string, clientPresent: bool, outcome: Outcome)
      returns (notice: Notice, sent: seq<Request>)
      requires Valid() && seeded
      modifies this
      ensures Valid() && seeded
      ensures history == AfterQuestion(old(history), question, clientPresent, outcome)
      ensures sent == ChatRequests(old(history), question, clientPresent)
      ensures notice == ChatNotice(clientPresent, outcome)
    {
      history := history + [Turn(User, question)];
      if clientPresent {
        sent := [RequestFor(history)];
        match outcome {
          case Success(answer) =>
            history := history + [Turn(Assistant, answer)];
            notice := Answer(answer);
          case Failure(error) =>
            notice := ErrorNotice(ChatErrorPrefix + error);
        }
      } else {
        sent := [];
        notice := WarningNotice(ChatInactiveWarning);
      }
    }
  }
}
