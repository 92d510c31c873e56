# VoiceBot session logic in Dafny

A model of the conversation-session logic of the VoiceBot voice assistant
(`gradio_app.py`): the bounded chat history with its system prompt, one chat
step against the language-model backend (`chat_with_gpt`), the microphone
retry loop (`listen_with_retry`) and the voice trigger's fallback text
(`voice_input_trigger`).

External effects are replaced by inputs and outputs:

- the language-model call is a function `Backend` from the history it is sent
  to `Ok(reply)` or `Fail(msg)`; `Fail` covers the timeout, transport errors
  and malformed responses that the broad `except` catches, and `msg` stands
  for `str(e)`;
- each listen-and-recognise attempt is the value `mic(i)` of a function
  `Microphone`: `Heard(text)`, `Transient` (unintelligible speech or a wait
  timeout) or `ServiceError` (the recognition service failed);
- speech output is the list of strings handed to `speak`, in order;
- the global `message_history` is passed in and returned as a `seq<Message>`;
- the text box value is an `Option<string>`, so that both `None` and `""`
  are falsy as in Python.

Files: `wrappers.dfy` (`Option`), `history.dfy` (messages, constants,
truncation), `chat.dfy` (chat step and runs of steps), `listen.dfy` (retry
loop), `voice.dfy` (voice trigger).

`chat_with_gpt` has no emotion classification and returns and speaks the raw
reply, undecorated (gradio_app.py:77-78).

## Model

| member | source | states |
|---|---|---|
| `History.Truncate` | gradio_app.py:72-75 | trimming happens exactly when the history is longer than 2*MAX_HISTORY+1; then the result has exactly 2*MAX_HISTORY+1 messages, keeps the first message and, at every later position, the corresponding message of the newest 2*MAX_HISTORY; otherwise the history is untouched |
| `History.TruncateCompliantIsNoop` | gradio_app.py:73 | a history within the bound is neither trimmed nor changed |
| `History.TruncateIdempotent` | gradio_app.py:73-74 | truncating an already truncated history neither trims (so gives no warning) nor changes it |
| `History.TruncateKeepsAnchor` | gradio_app.py:74 | the system prompt stays at element 0 across truncation |
| `History.TruncateDropsOldest` | gradio_app.py:73-74 | the messages truncation discards are exactly the oldest ones after the system prompt: the original history is the kept first message, then the dropped messages, then the kept window, in order (first in, first out) |
| `Chat.ChatStep` | gradio_app.py:55-82 | falsy input gives ("No input received.", "") with the history unchanged, nothing spoken and the backend not consulted; otherwise the backend is sent the old history plus the user turn; on success the reply is returned unmodified and spoken, the history is the old one plus user and assistant turns, trimmed to the bound, and the warning is the "Too many messages" text exactly when trimming happened, "" otherwise; on failure only the user turn is added, the reply is "Error: " + message, the warning is the "something went wrong" text and the fixed error notice is spoken; the system prompt stays first on every path |
| `Chat.RunKeepsAnchor` | gradio_app.py:55-82 | over any sequence of steps (empty input, success, failure) element 0 stays the system prompt |
| `Chat.RunAnsweredLength` | gradio_app.py:60-75 | starting within the bound, N answered steps leave min(length + 2N, 2*MAX_HISTORY+1) messages |
| `Chat.SessionHistoryBound` | gradio_app.py:24-75 | from the initial one-message history, N answered steps leave min(2N+1, 2*MAX_HISTORY+1) messages with the system prompt first |
| `Chat.RunFailedLength` | gradio_app.py:60-82 | failed steps are never trimmed: N failures add exactly N messages |
| `Chat.FailureCanExceedBound` | gradio_app.py:60-82 | a failure on a full window leaves 2*MAX_HISTORY+2 messages, one past the bound |
| `Chat.FirstExchange` | gradio_app.py:55-78 | a fresh session asked "Hello" and answered "Hi there!" returns ("Hi there!", ""), speaks "Hi there!" and holds [system, user "Hello", assistant "Hi there!"] |
| `Listen.ListenWithRetry` | gradio_app.py:30-52 | at most max(max_attempts, 0) attempts; every attempt before the last is transient; the result is the transcript of the first Heard outcome, or None right after the first service error, or None after max_attempts transient failures; one retry prompt is spoken per transient failure and the service notice on a service error |
| `Listen.ExplainsUnique` | gradio_app.py:37-52 | the loop's contract determines its result completely from the attempt outcomes |
| `Listen.NoBudgetNoAttempt` | gradio_app.py:37-38 | with max_attempts <= 0 no attempt is made, nothing is spoken and the result is None |
| `Listen.NeverUnderstood` | gradio_app.py:37-52 | when every attempt is transient the loop makes exactly max_attempts attempts, speaks that many retry prompts and returns None |
| `Listen.ServiceDown` | gradio_app.py:49-51 | a service error on the first attempt ends the loop after one attempt, speaking only the service notice |
| `Voice.TriggerText` | gradio_app.py:86-89 | a present, non-empty transcript is returned as is; None or "" gives the fixed "couldn't understand you" text; the result is never empty |
| `Voice.VoiceInputTrigger` | gradio_app.py:85-89 | runs the listener with its default of three attempts and returns its transcript when truthy, the fallback text otherwise |
| `Voice.TriggerTextOrigin` | gradio_app.py:85-89 | the trigger's text is either the fallback or a transcript heard on one of the first three attempts |

## Left out

- Gradio interface wiring and `demo.launch()` (gradio_app.py:92-105): presentation only.
- Text-to-speech engine set-up and playback (gradio_app.py:11-21): audio side effects; `speak` is modelled only as the list of strings spoken.
- Microphone, ambient-noise calibration, listen and phrase timeouts and Google recognition (gradio_app.py:31-35, 41-43): hardware and network; replaced by the per-attempt outcome function.
- OpenAI client, API key, model name and request timeout (gradio_app.py:8, 63-69): network; replaced by the `Backend` function.
- Progress prints (gradio_app.py:40-44): console output only.
- Chat.ChatStep: an exception raised by `speak(reply)` inside the `try` would reach the failure branch after the history was already extended and trimmed; speech failures are not modelled, so this path is not either.
- Chat.ChatStep: a backend reply whose content is not a string (for example `None`) is not modelled; replies are strings.
