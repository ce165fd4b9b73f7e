# Facilitation relay: a Dafny model

This project models the core of a small live-deliberation relay. A Node.js
server (`server.js`) sits between two browser displays, a streaming
transcription provider and a text-generation provider. The facilitator display
(`public/app.js`) shows the live transcript and holds each generated advisory
until the facilitator releases it. The participant display
(`public/participant.js`) shows the advisory only after the release.

Sockets, HTTP, the DOM and both providers are removed. What remains are three
sequential, event-driven components. Each is modelled as a state plus one
handler per message:

- `protocol.dfy`, module `Protocol`: the wire messages as closed tagged unions.
  A message that does not parse is a case of its own.
- `session_log.dfy`, module `SessionLog`: the relay's `sessionData` and the
  pure text derived from it. This is one `[timestamp] Speaker s: text` line
  per stored final, the context those lines join into, and the user turn sent
  to the provider. `Split` is an independent reading of the joined text, used
  to prove that the context holds exactly one line per record.
- `server.dfy`, module `Server`: the transcript handler, the control-message
  dispatcher and the broadcast to open clients. Each is a specification
  function returning the new session and the list of outputs. Class `Relay`
  holds `sessionData`'s two lists as fields; its handlers update them in place
  and are proved equal to those functions. `SendToOpenClients` is the
  `forEach` loop, proved against `Broadcast`.
- `facilitator.dfy`, module `Facilitator`: class `InteractionObserver`. The
  transcript container is a sequence of lines. `currentInterim` maps a speaker
  to the index of its live interim line. The release button is a boolean.
  `Screen` is the value of all the fields, and the functions `Updated`,
  `Received`, `Released` and `Triggered` give the screen after each handler.
- `participant.dfy`, module `Participant`: the `pendingCoachMessage` /
  `releasePending` latch as a value (`Latch`) and as the fields of class
  `ParticipantPage`.
- `release_flow.dfy`, module `ReleaseFlow`: the two-phase gate across all
  three components.

The wall clock, the transcription events, the provider's outcome and the
sockets' ready states are all parameters.

Behaviour of the code worth knowing:

- A transcript record goes only to the connection that owns the stream
  (server.js:141). It is not broadcast.
- Empty transcript text is stored and sent by the relay. Only the facilitator
  display drops it.
- `sessionData.triggers` is never written.
- `sessionData` is never reset. Every close writes the whole log accumulated
  since the process started.
- The relay keeps no pending advisory and no release state. The gate lives in
  the displays, and the `release-response` broadcast carries no text.
- The message tags are `openai-response`, `openai-error` and
  `release-response`.
- Each context line has the form `[timestamp] Speaker s: text`.
- A final transcript line does not replace the interim line of its speaker.
  The interim line stays visible with the last interim text, so an utterance
  shows twice on the facilitator display (`Facilitator.InterimsThenFinal`).

## Model

| member | source | states |
|---|---|---|
| `Protocol.Encode` | server.js:170-178 | A control message the facilitator sends reaches the relay as a parsed frame. Its `type` is `trigger` exactly for a trigger request and `release-response` exactly for a release request. A trigger request's `trigger` field is carried unchanged. |
| `SessionLog.NatToString` | server.js:185 | A speaker number renders as a non-empty string of decimal digits with no leading zero. |
| `SessionLog.NatToStringRoundTrip` | server.js:185 | Reading the rendered digits back gives the speaker number. |
| `SessionLog.Split` | server.js:186 | The newline-splitting reference reading returns at least one piece. |
| `SessionLog.SplitJoin` | server.js:186 | Joining newline-free lines with `'\n'` and splitting the result gives the lines back. |
| `SessionLog.JoinSnoc` | server.js:186 | Joining one more line appends a newline and that line to the earlier join. |
| `SessionLog.Line` | server.js:185 | A record renders as `[`, its timestamp, `] Speaker `, the speaker's decimal digits, `: ` and its text, by position. |
| `SessionLog.Join` | server.js:186 | Joining no parts gives the empty string. A join starts with its first part, followed by a newline when there are more parts. `SessionLog.SplitJoin` is its round-trip. |
| `SessionLog.Lines` | server.js:184-185 | There is one rendered line per stored record, in log order. |
| `SessionLog.CompileContext` | server.js:184-186 | An empty log compiles to the empty string. A single record compiles to exactly its line. |
| `SessionLog.ContextLines` | server.js:184-186 | When no timestamp or text holds a newline, splitting the context gives exactly the rendered records, one per stored final, in log order. |
| `SessionLog.ContextAppend` | server.js:184-186 | Storing one more final adds `'\n'` and its line after the earlier context. The earlier text is unchanged. |
| `SessionLog.TriggerInfo` | server.js:188 | The label is `Trigger activated: "`, then the trigger, then a closing quote. |
| `SessionLog.UserTurn` | server.js:66 | The user turn is the trigger label, then `"\n\nConversation so far:\n"`, then the context, with nothing else between or around them. |
| `SessionLog.UserTurnDeterminesContext` | server.js:66 | For a given trigger, the user turn determines the context. |
| `SessionLog.EmptyLogUserTurn` | server.js:184-188 | The "absence" trigger on an empty log sends only the label and the heading. |
| `Server.FirstSpeaker` | server.js:122 | The speaker is the first word's speaker. It is 0 when there are no words or the first word carries none. |
| `Server.Record` | server.js:118-133 | There is no record exactly when the event has no first alternative. Otherwise the record carries the clock's time, the first word's speaker, the first alternative's transcript (even when empty) and the event's finality. |
| `Server.ToWire` | server.js:141-144 | A `transcript` message carries the record's time, speaker, text and finality; `ReleaseFlow.FinalShownOnOwnerDisplay` and `ReleaseFlow.InterimShownOnOwnerDisplay` say what the owner's display does with it. |
| `Server.Stored` | server.js:135-138 | An event adds at most one record to the log. It adds one exactly when it has an alternative and is final, and that record is the event's own. |
| `Server.TranscriptStep` | server.js:115-149 | The log becomes the old log followed by what the event stores, at the end. The trigger list is unchanged. A record goes out as exactly one `transcript` message to the owning connection. An event without an alternative produces nothing. |
| `Server.TranscriptOnlyToOwner` | server.js:141-144 | Every output of the transcript handler is a send to the stream's owner, and there is at most one. |
| `Server.Broadcast` | server.js:198-205 | A broadcast sends no more messages than there are connections. Its recipients are characterised by `Server.BroadcastRecipients` and `Server.BroadcastOncePerClient`. |
| `Server.BroadcastRecipients` | server.js:216-223 | A broadcast sends only the given message and only to open connections, and it reaches every open connection. |
| `Server.BroadcastOncePerClient` | server.js:198-205 | With distinct connections, each open connection gets the message exactly once and a connection that is not open never gets it. |
| `Server.SendToOpenClients` | server.js:216-223 | The `forEach` loop produces exactly the broadcast's sends, in connection order. |
| `Server.CallOpenAI` | server.js:54-83 | A failed request yields null. A completed one yields its response body. |
| `Server.AdvisoryText` | server.js:194-195 | There is advisory text exactly when there is a body, a first choice, a message and non-empty content. The text is that content. |
| `Server.MessageStep` | server.js:161-241 | No frame changes the session. An audio frame is forwarded iff the stream's ready state is 1, and dropped otherwise. Unparsable frames and unknown types produce nothing. A release is broadcast to open connections. A trigger first sends the user turn built from the current log. Then it either broadcasts `openai-response` with the advisory text, or sends `openai-error` to the sender alone. |
| `Server.TriggerOutcome` | server.js:192-212 | With advisory text, every open connection is sent the `openai-response` carrying it, exactly once when the connections are distinct, and nothing else is sent besides the provider request. Without it (failed call, no choice, empty content), only the sender gets `openai-error` and no `openai-response` is sent. |
| `Server.RunAppendsFinals` | server.js:22-25 | After any sequence of events the log is the old log followed by exactly the final records in arrival order. Nothing is removed, reordered or duplicated, and no final is dropped. The trigger list never changes, and a disconnect does not reset anything. |
| `Server.InterimThenFinalStoredOnce` | server.js:135-138 | An interim then a final utterance from speaker 0 leaves exactly one stored record, the final one. |
| `Server.Relay.constructor` | server.js:22-25 | The session starts with both lists empty. |
| `Server.Relay.OnTranscript` | server.js:115-149 | Pushes a final onto the `transcripts` field in place. Both the new fields and the outputs equal `TranscriptStep` of the old session. |
| `Server.Relay.OnMessage` | server.js:161-241 | Its outputs equal `MessageStep` on the current session, and the broadcasts go through the loop. |
| `Server.Relay.OnClose` | server.js:243-251 | The value written is the whole session as it stands. |
| `Facilitator.Updated` | public/app.js:218-262 | Tracking stays sound. Only the lines and the tracking change. At most one line is added and none is removed. A line not tracked as an interim keeps its content. Another speaker keeps its tracking entry and its line. |
| `Facilitator.IgnoredTranscript` | public/app.js:218-234 | Missing data, a null timestamp or text, or an empty text changes neither the lines nor the tracking. |
| `Facilitator.InterimOverwrites` | public/app.js:240-243 | An interim for a tracked speaker rewrites that speaker's line in place. The line count and the tracking are unchanged. |
| `Facilitator.InterimOpens` | public/app.js:244-251 | An interim for an untracked speaker appends exactly one line and tracks its index. |
| `Facilitator.FinalAppends` | public/app.js:252-261 | A final appends exactly one new line and removes that speaker's tracking. Every earlier line, including the superseded interim line, is unchanged. |
| `Facilitator.InterimsThenFinal` | public/app.js:239-261 | Interim, revised interim, then final for one speaker add exactly two lines: the last interim text, then the final. |
| `Facilitator.Received` | public/app.js:28-56 | `openai-response` sets `pendingResponse` to its text, overwriting any earlier one, and enables the release button. `transcript` goes to `updateTranscript`. Any other type or an unparsable message changes nothing. |
| `Facilitator.Released` | public/app.js:96-127 | A click with no truthy `pendingResponse` is a no-op. Otherwise it appends exactly one COACH line with that text and sends exactly one `release-response` when the socket is open. It clears `pendingResponse` and disables the button. |
| `Facilitator.Triggered` | public/app.js:62-86 | A trigger click appends one trigger line, pauses audio, and sends the trigger when the socket is open. Tracking and the release gate are unchanged. |
| `Facilitator.SendsAudio` | public/app.js:186 | A buffer is sent only while the socket is open and audio is not paused. |
| `Facilitator.PausedStaysPaused` | public/app.js:70-86 | After a trigger click, no buffer is sent through any run of handlers other than the restore timer and the end of audio setup. A click while the socket is not open schedules no restore, so audio stays off until setup completes. |
| `Facilitator.OthersKeepPaused` | public/app.js:19-22 | Paused audio stays paused through messages, clicks and the socket closing. |
| `Facilitator.ApplyKeepsConsistent` | public/app.js:36-42 | Every handler keeps the tracking sound and keeps the button enabled exactly when a response is pending. |
| `Facilitator.Run` | public/app.js:28-132 | Any run of handlers from a consistent screen ends consistent. |
| `Facilitator.ReachableIsConsistent` | public/app.js:94 | The initial screen, with the button disabled and nothing pending, is consistent. So is every screen reachable from it. |
| `Facilitator.InteractionObserver.constructor` | public/app.js:2-12 | Starts with no lines, no tracking, nothing pending, the button disabled and audio off. |
| `Facilitator.InteractionObserver.UpdateTranscript` | public/app.js:218-262 | Updates the line and tracking fields in place to `Updated` of the old screen and keeps the object invariant. |
| `Facilitator.InteractionObserver.OnMessage` | public/app.js:28-56 | Updates the fields to `Received` of the old screen. |
| `Facilitator.InteractionObserver.OnReleaseClick` | public/app.js:96-127 | Updates the fields to `Released` of the old screen. |
| `Facilitator.InteractionObserver.OnTriggerClick` | public/app.js:62-86 | Updates the fields to `Triggered` of the old screen. When the socket is open it returns the old audio flag for the scheduled timer to restore; when it is not, it returns None, as no timer is scheduled. |
| `Facilitator.InteractionObserver.ResumeAudio` | public/app.js:83-85 | The timer callback restores the saved audio flag and changes nothing else. |
| `Facilitator.InteractionObserver.OnAudioReady` | public/app.js:214 | Audio capture setup sets the audio flag, whether or not capture succeeded. |
| `Facilitator.InteractionObserver.OnSocketClose` | public/app.js:19-22 | Closing the socket clears the audio flag and nothing else. |
| `Participant.Received` | public/participant.js:10-41 | Showing always resets the latch. After an advisory or a release, a truthy message and a waiting release are never both set. An advisory stores its text, or is shown at once when a release is waiting. A release shows exactly the pending text when it is truthy, and otherwise latches. Anything else changes nothing. |
| `Participant.Show` | public/participant.js:43-54 | Shows exactly the pending text, and leaves neither a truthy message nor a waiting release. |
| `Participant.ReplayNeverBoth` | public/participant.js:10-37 | Over any run of messages, a truthy pending message and a waiting release are never both set. |
| `Participant.EitherOrder` | public/participant.js:14-37 | With nothing waiting, advisory-then-release and release-then-advisory both show the advisory exactly once and end in the initial state. |
| `Participant.LastAdvisoryWins` | public/participant.js:16 | Of two advisories before a release, only the later one is shown. |
| `Participant.EmptyAdvisoryWaits` | public/participant.js:34 | An empty advisory is not shown on release, so both stay waiting. The next advisory is then shown at once. |
| `Participant.ParticipantPage.constructor` | public/participant.js:3-4 | Starts with no pending message, no release waiting and the coach box hidden. |
| `Participant.ParticipantPage.ShowCoachMessage` | public/participant.js:43-54 | Shows exactly the pending text and clears both variables. |
| `Participant.ParticipantPage.OnMessage` | public/participant.js:10-41 | Updates both variables to `Received` of the old latch. The coach box changes only when a text is shown. |
| `ReleaseFlow.FinalShownOnOwnerDisplay` | server.js:141-144 | A final sent to its owner is shown there as one new speaker line with the record's time, speaker and text, ending that speaker's interim. An empty final, which the relay stores and sends, leaves the display unchanged. |
| `ReleaseFlow.InterimShownOnOwnerDisplay` | server.js:141-144 | An interim sent to its owner rewrites that speaker's live line when there is one, and otherwise appends and tracks a new line. |
| `ReleaseFlow.AdvisoryIsHeld` | server.js:198-205 | When a trigger yields advisory text, every open connection is sent it. The facilitator then holds it with the button enabled, and a participant with no release waiting holds it without showing it. |
| `ReleaseFlow.ReleaseShowsHeldAdvisory` | server.js:213-223 | The facilitator's release sends one request, and the relay sends a release to every open connection without touching the session. A participant holding a non-empty advisory then shows exactly it and resets. |

## Left out

- The transcription provider's client and live stream (server.js:97-113, 151-158) are out. Its events are inputs, and the transcript listener being registered only after the stream opens is not modelled.
- The HTTP request to the advisory provider (server.js:58-76) and the fixed system prompt (server.js:28-51) are out. The request's outcome is an input.
- The `await` at server.js:192 is not modelled. A trigger and the completion of its call are one atomic step, so overlapping triggers and transcripts arriving during a call are not interleaved.
- Express static serving, the WebSocket server, the session file write and its timestamped name (server.js:14-19, 247-251) are I/O. `Server.Relay.OnClose` returns the value that would be written.
- Exceptions from `send` on a closing socket and the surrounding `try`/`catch` logging are not modelled. An output is an attempted send.
- The JSON text is not modelled. A parsed message is a datatype. A field the server always sends (an advisory's `data.text`) is always present, so the TypeError a malformed `openai-response` would raise is not modelled.
- A missing `transcript` string on an alternative is not modelled: the relay's record text is always a string.
- The DOM is not modelled. Elements are assumed present, so the paths where `getElementById` returns null are not modelled. CSS classes, scrolling, the pulse animation and the coach box's styling are out. `toLocaleTimeString` is out: line times are the opaque timestamp strings.
- Audio capture and the float-to-16-bit conversion loop (public/app.js:158-212) involve browser APIs and floating point. Only the flag deciding whether a buffer is sent (`Facilitator.SendsAudio`) is modelled.
- The 200 ms delay before `isProcessingAudio` is restored (public/app.js:83-85) is not modelled. The restore is an event of its own.
- Facilitator.Run: accepts a restore event (`AudioResumed`) at any point, not only after a click on an open socket that scheduled it, so it covers more runs than the page can produce. `Facilitator.InteractionObserver.OnTriggerClick` says when a restore is scheduled.
- Server.MessageStep: every recipient of a broadcast gets the same `now`, while the relay reads the clock once per recipient (server.js:202, 220), so recipients may see different timestamps. Neither display reads that field.
- `SessionLog.NatToString` does not model JavaScript's exponent notation for numbers of 1e21 and above. Speakers are small non-negative integers.
- Console logging is out.
