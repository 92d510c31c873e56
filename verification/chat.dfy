/**
  One chat step of the assistant: guard against empty input, record the user
  turn, ask the language-model backend, then either record the reply and trim
  the window, or report the failure. Network access is abstracted as a
  `Backend` function and speech output as the list of strings spoken.
 */
module Chat {

  import opened Wrappers
  import opened History

  /** What the language-model call yields: a reply, or an exception message. */
  datatype BackendOutcome = Ok(reply: string) | Fail(msg: string)

  /** The backend sees the whole history, including the new user turn. */
  type Backend = seq<Message> -> BackendOutcome

  const NO_INPUT_REPLY: string := "No input received."
  const TRIM_WARNING: string :=
    "\U{26A0}\U{FE0F} Too many messages! Older ones were removed to stay sharp."
  const FAILURE_WARNING: string :=
    "\U{26A0}\U{FE0F} Hmm, something went wrong while getting a response. Please try again."
  const ERROR_NOTICE: string := "There was an error generating a response."
  const ERROR_PREFIX: string := "Error: "

  /**
    The two strings shown to the user, the history afterwards, the strings
    handed to the speech engine, and the history sent to the backend (`None`
    when the backend was not consulted).
   */
  datatype ChatResult = ChatResult(
    reply: string,
    warning: string,
    history: seq<Message>,
    spoken: seq<string>,
    sent: Option<seq<Message>>)

  function UserTurn(text: string): Message
  {
    Message(User, text)
  }

  function AssistantTurn(text: string): Message
  {
    Message(Assistant, text)
  }

  function ChatStep(h: seq<Message>, input: Option<string>, backend: Backend): (r: ChatResult)
    // empty input: fixed answer, no backend, no history change, silence
    ensures Falsy(input) <==> r.sent.None?
    ensures Falsy(input) ==> r == ChatResult(NO_INPUT_REPLY, "", h, [], None)
    // otherwise the backend sees the old history plus the user turn
    ensures !Falsy(input) ==> r.sent == Some(h + [UserTurn(input.value)])
    // success: the raw reply is returned and spoken, the window is trimmed
    ensures !Falsy(input) && backend(h + [UserTurn(input.value)]).Ok? ==>
      var reply := backend(h + [UserTurn(input.value)]).reply;
      var grown := h + [UserTurn(input.value), AssistantTurn(reply)];
      && r.reply == reply
      && r.spoken == [reply]
      && (r.warning == TRIM_WARNING <==> |grown| > BOUND)
      && (r.warning == "" <==> |grown| <= BOUND)
      && |r.history| <= BOUND
      && (|grown| <= BOUND ==> r.history == grown)
      && (|grown| > BOUND ==>
            && |r.history| == BOUND
            && r.history[0] == grown[0]
            && r.history[1..] == grown[|grown| - WINDOW..])
    // failure: only the user turn is recorded, and the error is reported
    ensures !Falsy(input) && backend(h + [UserTurn(input.value)]).Fail? ==>
      && r.history == h + [UserTurn(input.value)]
      && r.reply == ERROR_PREFIX + backend(h + [UserTurn(input.value)]).msg
      && r.warning == FAILURE_WARNING
      && r.spoken == [ERROR_NOTICE]
    // the system prompt stays first on every path
    ensures Anchored(h) ==> Anchored(r.history)
  {
    if Falsy(input) then
      ChatResult(NO_INPUT_REPLY, "", h, [], None)
    else
      var asked := h + [UserTurn(input.value)];
      match backend(asked)
      case Ok(reply) =>
        var t := Truncate(asked + [AssistantTurn(reply)]);
        ChatResult(reply, if t.trimmed then TRIM_WARNING else "", t.history, [reply], Some(asked))
      case Fail(msg) =>
        ChatResult(ERROR_PREFIX + msg, FAILURE_WARNING, asked, [ERROR_NOTICE], Some(asked))
  }

  /** One user action as seen by the session: the text and the backend's answer. */
  datatype Exchange = Exchange(input: Option<string>, outcome: BackendOutcome)

  /**
    The history after a sequence of exchanges, oldest first: repeated calls of
    the chat step, each one reading and replacing the session's single global
    history.
   */
  function Run(h: seq<Message>, xs: seq<Exchange>): seq<Message>
    decreases |xs|
  {
    if |xs| == 0 then h
    else
      var x := xs[0];
      Run(ChatStep(h, x.input, _ => x.outcome).history, xs[1..])
  }

  /** Every exchange carries non-empty text that the backend answers. */
  predicate AllAnswered(xs: seq<Exchange>)
  {
    forall i :: 0 <= i < |xs| ==> !Falsy(xs[i].input) && xs[i].outcome.Ok?
  }

  /** Every exchange carries non-empty text that the backend fails on. */
  predicate AllFailed(xs: seq<Exchange>)
  {
    forall i :: 0 <= i < |xs| ==> !Falsy(xs[i].input) && xs[i].outcome.Fail?
  }

  function Min(a: int, b: int): int
  {
    if a <= b then a else b
  }

  /** Whatever happens, the system prompt remains element 0. */
  lemma {:induction false} RunKeepsAnchor(h: seq<Message>, xs: seq<Exchange>)
    requires Anchored(h)
    ensures Anchored(Run(h, xs))
    decreases |xs|
  {
    if |xs| > 0 {
      var x := xs[0];
      RunKeepsAnchor(ChatStep(h, x.input, _ => x.outcome).history, xs[1..]);
    }
  }

  /**
    Answered exchanges grow the history by two messages each until the
    window is full, and never past it.
   */
  lemma {:induction false} RunAnsweredLength(h: seq<Message>, xs: seq<Exchange>)
    requires |h| <= BOUND
    requires AllAnswered(xs)
    ensures |Run(h, xs)| == Min(|h| + 2 * |xs|, BOUND)
    decreases |xs|
  {
    if |xs| > 0 {
      var x := xs[0];
      var next := ChatStep(h, x.input, _ => x.outcome).history;
      assert |next| == Min(|h| + 2, BOUND);
      assert AllAnswered(xs[1..]) by {
        forall i | 0 <= i < |xs[1..]|
          ensures !Falsy(xs[1..][i].input) && xs[1..][i].outcome.Ok?
        {
          assert xs[1..][i] == xs[i + 1];
        }
      }
      RunAnsweredLength(next, xs[1..]);
    }
  }

  /** From a fresh session, N answered exchanges leave min(2N+1, 2*MAX_HISTORY+1) messages. */
  lemma SessionHistoryBound(xs: seq<Exchange>)
    requires AllAnswered(xs)
    ensures |Run(INITIAL, xs)| == Min(2 * |xs| + 1, BOUND)
    ensures Run(INITIAL, xs)[0] == SYSTEM_MESSAGE
  {
    RunAnsweredLength(INITIAL, xs);
    RunKeepsAnchor(INITIAL, xs);
  }

  /** Failed exchanges are never trimmed: each one adds exactly the user turn. */
  lemma {:induction false} RunFailedLength(h: seq<Message>, xs: seq<Exchange>)
    requires AllFailed(xs)
    ensures |Run(h, xs)| == |h| + |xs|
    decreases |xs|
  {
    if |xs| > 0 {
      var x := xs[0];
      assert AllFailed(xs[1..]) by {
        forall i | 0 <= i < |xs[1..]|
          ensures !Falsy(xs[1..][i].input) && xs[1..][i].outcome.Fail?
        {
          assert xs[1..][i] == xs[i + 1];
        }
      }
      RunFailedLength(ChatStep(h, x.input, _ => x.outcome).history, xs[1..]);
    }
  }

  /** A failure on a full window pushes the history past the bound. */
  lemma FailureCanExceedBound(h: seq<Message>, text: string, msg: string)
    requires |h| == BOUND && text != ""
    ensures |ChatStep(h, Some(text), _ => Fail(msg)).history| == BOUND + 1
  {
  }

  /**
    The exchange a fresh session would have on "Hello" answered by
    "Hi there!": the reply comes back undecorated and nothing is trimmed.
   */
  lemma FirstExchange()
    ensures
      var r := ChatStep(INITIAL, Some("Hello"), _ => Ok("Hi there!"));
      && r.reply == "Hi there!"
      && r.warning == ""
      && r.history == [SYSTEM_MESSAGE, UserTurn("Hello"), AssistantTurn("Hi there!")]
      && r.spoken == ["Hi there!"]
  {
  }
}
