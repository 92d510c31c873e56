/**
  The bounded conversation history of the voice assistant: the message
  records exchanged with the language model, the system prompt that opens
  every session, and the truncation step that keeps the window bounded.
 */
module History {

  datatype Role = System | User | Assistant

  /** One `{"role": ..., "content": ...}` record of the history. */
  datatype Message = Message(role: Role, content: string)

  /** Number of user/assistant exchanges the window keeps. */
  const MAX_HISTORY: nat := 10

  /** Messages kept after the system prompt when the window is trimmed. */
  const WINDOW: nat := 2 * MAX_HISTORY

  /** Largest history length that is left alone. */
  const BOUND: nat := 2 * MAX_HISTORY + 1

  const SYSTEM_PROMPT: string := "You are a helpful and conversational voice assistant."

  const SYSTEM_MESSAGE: Message := Message(System, SYSTEM_PROMPT)

  /** The history a session starts with: the system prompt alone. */
  const INITIAL: seq<Message> := [SYSTEM_MESSAGE]

  /** Element 0 of the history is the session's system prompt. */
  predicate Anchored(h: seq<Message>)
  {
    |h| >= 1 && h[0] == SYSTEM_MESSAGE
  }

  /** A history after truncation, and whether anything was dropped. */
  datatype Trimmed = Trimmed(history: seq<Message>, trimmed: bool)

  /**
    Keeps the first message plus the last `WINDOW` messages once the history
    is longer than `BOUND`; a history within the bound is returned as is.
   */
  function Truncate(h: seq<Message>): (r: Trimmed)
    ensures r.trimmed <==> |h| > BOUND
    ensures !r.trimmed ==> r.history == h
    ensures r.trimmed ==> |r.history| == BOUND && r.history[0] == h[0]
    ensures r.trimmed ==>
      forall i :: 1 <= i < |r.history| ==> r.history[i] == h[|h| - BOUND + i]
    ensures |r.history| <= BOUND || r.history == h
  {
    if |h| > BOUND then
      // the slice `[-WINDOW:]` of a list longer than WINDOW
      Trimmed([h[0]] + h[|h| - WINDOW..], true)
    else
      Trimmed(h, false)
  }

  /** Truncating a history that is already within the bound changes nothing. */
  lemma TruncateCompliantIsNoop(h: seq<Message>)
    requires |h| <= BOUND
    ensures Truncate(h) == Trimmed(h, false)
  {
  }

  /** A second truncation never trims again and never changes the window. */
  lemma TruncateIdempotent(h: seq<Message>)
    ensures Truncate(Truncate(h).history) == Trimmed(Truncate(h).history, false)
  {
  }

  /** Truncation keeps the system prompt in place. */
  lemma TruncateKeepsAnchor(h: seq<Message>)
    requires Anchored(h)
    ensures Anchored(Truncate(h).history)
  {
  }

  /**
    Truncation drops exactly the oldest messages after the system prompt:
    the original history is the kept first message, then the dropped ones,
    then the kept window, in order.
   */
  lemma TruncateDropsOldest(h: seq<Message>)
    requires |h| > BOUND
    ensures h == [h[0]] + h[1..|h| - WINDOW] + Truncate(h).history[1..]
  {
    var r := Truncate(h).history;
    assert r[1..] == h[|h| - WINDOW..] by {
      forall i | 0 <= i < WINDOW
        ensures r[1..][i] == h[|h| - WINDOW..][i]
      {
        assert r[1..][i] == r[i + 1];
      }
    }
    assert h == [h[0]] + h[1..|h| - WINDOW] + h[|h| - WINDOW..];
  }
}
