/**
  The voice trigger: run the listener with its default budget and turn a
  missing or empty transcript into a fixed apology.
 */
module Voice {

  import opened Wrappers
  import opened Listen

  const FALLBACK: string :=
    "\U{1F615} I couldn't understand you after a few tries. You can try again or type your message!"

  /** The text the trigger hands back for a listener result. */
  function TriggerText(transcript: Option<string>): (text: string)
    ensures text != ""
    ensures !Falsy(transcript) ==> text == transcript.value
    ensures Falsy(transcript) ==> text == FALLBACK
  {
    if !Falsy(transcript) then transcript.value else FALLBACK
  }

  method VoiceInputTrigger(mic: Microphone) returns (text: string, c: Capture)
    ensures Explains(mic, DEFAULT_MAX_ATTEMPTS, c)
    ensures text != ""
    ensures !Falsy(c.transcript) ==> text == c.transcript.value
    ensures Falsy(c.transcript) ==> text == FALLBACK
  {
    c := ListenWithRetry(mic, DEFAULT_MAX_ATTEMPTS);
    text := TriggerText(c.transcript);
  }

  /** The trigger's text is either a transcript heard within the default number of attempts or the apology. */
  lemma TriggerTextOrigin(mic: Microphone, c: Capture)
    requires Explains(mic, DEFAULT_MAX_ATTEMPTS, c)
    ensures TriggerText(c.transcript) == FALLBACK
            || exists i: nat :: i < DEFAULT_MAX_ATTEMPTS && mic(i) == Heard(TriggerText(c.transcript))
  {
    if !Falsy(c.transcript) {
      assert mic(c.listens - 1) == Heard(TriggerText(c.transcript));
    }
  }
}
