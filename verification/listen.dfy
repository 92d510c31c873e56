/**
  The voice listener's bounded retry loop. Each listen-and-recognise attempt
  is abstracted as an outcome chosen by the environment: a transcript, a
  transient failure (nothing intelligible, or no speech before the wait
  timed out), or a failure of the recognition service itself.
 */
module Listen {

  import opened Wrappers

  datatype AttemptOutcome = Heard(text: string) | Transient | ServiceError

  /** The outcome of attempt number `i`, counting from 0. */
  type Microphone = nat -> AttemptOutcome

  const DEFAULT_MAX_ATTEMPTS: int := 3
  const RETRY_PROMPT: string := "I didn't catch that. Please try again."
  const SERVICE_ERROR_NOTICE: string := "Speech recognition service error."

  /** The transcript (if any), the number of attempts made, and what was spoken. */
  datatype Capture = Capture(transcript: Option<string>, listens: nat, spoken: seq<string>)

  /** Attempts the loop may make: `max_attempts`, or none when it is not positive. */
  function Budget(maxAttempts: int): nat
  {
    if maxAttempts <= 0 then 0 else maxAttempts
  }

  /** The first `n` attempts all failed transiently. */
  predicate AllTransient(mic: Microphone, n: nat)
  {
    forall i: nat :: i < n ==> mic(i).Transient?
  }

  /** One retry prompt per transient failure. */
  function Prompts(n: nat): seq<string>
  {
    seq(n, _ => RETRY_PROMPT)
  }

  /**
    The loop's contract: within the budget, either the first non-transient
    attempt heard a transcript, or it hit a service error, or every budgeted
    attempt failed transiently; one retry prompt is spoken per transient
    failure and a notice on a service error.
   */
  predicate Explains(mic: Microphone, maxAttempts: int, c: Capture)
  {
    && c.listens <= Budget(maxAttempts)
    && match c.transcript
       case Some(t) =>
         && 1 <= c.listens
         && AllTransient(mic, c.listens - 1)
         && mic(c.listens - 1) == Heard(t)
         && c.spoken == Prompts(c.listens - 1)
       case None =>
         || (&& c.listens == Budget(maxAttempts)
             && AllTransient(mic, c.listens)
             && c.spoken == Prompts(c.listens))
         || (&& 1 <= c.listens
             && AllTransient(mic, c.listens - 1)
             && mic(c.listens - 1) == ServiceError
             && c.spoken == Prompts(c.listens - 1) + [SERVICE_ERROR_NOTICE])
  }

  method ListenWithRetry(mic: Microphone, maxAttempts: int) returns (c: Capture)
    ensures Explains(mic, maxAttempts, c)
  {
    var attempts: nat := 0;
    var spoken: seq<string> := [];
    while attempts < maxAttempts
      invariant attempts <= Budget(maxAttempts)
      invariant AllTransient(mic, attempts)
      invariant spoken == Prompts(attempts)
      decreases maxAttempts - attempts
    {
      match mic(attempts)
      case Heard(text) =>
        return Capture(Some(text), attempts + 1, spoken);
      case ServiceError =>
        return Capture(None, attempts + 1, spoken + [SERVICE_ERROR_NOTICE]);
      case Transient =>
        spoken := spoken + [RETRY_PROMPT];
        attempts := attempts + 1;
    }
    return Capture(None, attempts, spoken);
  }

  /** Only one capture satisfies the contract: the outcomes decide it. */
  lemma ExplainsUnique(mic: Microphone, maxAttempts: int, c1: Capture, c2: Capture)
    requires Explains(mic, maxAttempts, c1)
    requires Explains(mic, maxAttempts, c2)
    ensures c1 == c2
  {
    // every attempt before the last one of either capture was transient,
    // and the last one of either capture was decisive or the budget ran out
    if c1.listens < c2.listens {
      assert false;
    } else if c2.listens < c1.listens {
      assert false;
    }
  }

  /** With no positive budget the microphone is never consulted. */
  lemma NoBudgetNoAttempt(mic: Microphone, maxAttempts: int, c: Capture)
    requires maxAttempts <= 0
    requires Explains(mic, maxAttempts, c)
    ensures c == Capture(None, 0, [])
  {
  }

  /** A speaker who is never understood gets exactly `max_attempts` prompts and no transcript. */
  lemma NeverUnderstood(maxAttempts: int, c: Capture)
    requires Explains(_ => Transient, maxAttempts, c)
    ensures c == Capture(None, Budget(maxAttempts), Prompts(Budget(maxAttempts)))
  {
  }

  /** A service error on the first attempt ends the loop at once. */
  lemma ServiceDown(mic: Microphone, maxAttempts: int, c: Capture)
    requires maxAttempts >= 1 && mic(0) == ServiceError
    requires Explains(mic, maxAttempts, c)
    ensures c == Capture(None, 1, [SERVICE_ERROR_NOTICE])
  {
  }
}
