/**
 * The messages exchanged between the relay and the two browser displays,
 * as closed tagged unions. JSON text is not modelled: a message that does
 * not parse is its own case.
 */
module Protocol {

  datatype Option<+T> = None | Some(value: T)

  /** Whether a string-or-null value is truthy: present and non-empty. */
  predicate Truthy(s: Option<string>)
  {
    s.Some? && s.value != ""
  }

  /** Identity of one WebSocket connection to the relay. */
  type ClientId = nat

  /** The `data` object of a `transcript` message as a display reads it:
      `timestamp` and `text` may be missing (null or undefined). */
  datatype TranscriptData = TranscriptData(
    timestamp: Option<string>,
    speaker: nat,
    text: Option<string>,
    isFinal: bool)

  /** Messages the relay writes to a display, by their `type` tag. */
  datatype ServerMsg =
    | Transcript(data: Option<TranscriptData>)          // type 'transcript'
    | OpenAIResponse(text: string, timestamp: string)   // type 'openai-response'
    | OpenAIError(error: string)                        // type 'openai-error'
    | ReleaseResponse(timestamp: string)                // type 'release-response'
    | Other(kind: string)                               // any other `type` tag

  /** What a display's `onmessage` handler gets once it has tried to parse. */
  datatype Inbound = Unparsable | Parsed(msg: ServerMsg)

  /** Messages the facilitator display writes to the relay. */
  datatype ClientMsg =
    | TriggerRequest(trigger: string, timestamp: string)  // type 'trigger'
    | ReleaseRequest(timestamp: string)                   // type 'release-response'

  /** A text frame as the relay parses it: only `type` and `trigger` are read.
      A field the sender left out is rendered as the text "undefined". */
  datatype Control = Malformed | Control(kind: string, trigger: string)

  /** A frame arriving at the relay: binary audio or a text control message. */
  datatype Frame = Binary(bytes: seq<bv8>) | Text(control: Control)

  /** The frame the relay receives when a display sends `m` as JSON. */
  function Encode(m: ClientMsg): (f: Frame)
    ensures f.Text? && f.control.Control?
    ensures m.TriggerRequest? <==> f.control.kind == "trigger"
    ensures m.ReleaseRequest? <==> f.control.kind == "release-response"
    ensures m.TriggerRequest? ==> f.control.trigger == m.trigger
  {
    match m
    case TriggerRequest(t, _) => Text(Control("trigger", t))
    case ReleaseRequest(_) => Text(Control("release-response", "undefined"))
  }
}
