/**
 * The relay process (server.js) with its sockets, the transcription stream
 * and the HTTP call to the advisory provider stripped away. What remains:
 * the transcript handler, which stores finals in `sessionData` and echoes
 * every record to its own connection; the control-message dispatcher
 * (trigger, release-response, audio); and the broadcast to open clients.
 *
 * The wall clock, the provider's answer and the sockets' ready states are
 * parameters. A trigger and the completion of its provider call are one step.
 */
module Server {
  import opened Protocol
  import opened SessionLog

  /** `WebSocket.OPEN`, and the transcription stream's "open" ready state. */
  const OPEN := 1

  /** The error text the sender of a failed trigger receives. */
  const NoValidResponse := "OpenAI returned no valid response."

  /** A connected display, with its socket's ready state. */
  datatype Client = Client(id: ClientId, readyState: int)

  // ---------------------------------------------------------------------
  // Transcription events

  datatype Word = Word(speaker: Option<nat>)
  datatype Alternative = Alternative(transcript: string, words: seq<Word>)
  /** A transcript event: `channel.alternatives` (empty when missing) and `is_final`. */
  datatype ProviderEvent = ProviderEvent(alternatives: seq<Alternative>, isFinal: bool)

  // ---------------------------------------------------------------------
  // Advisory provider results

  datatype ChatMessage = ChatMessage(content: Option<string>)
  datatype Choice = Choice(message: Option<ChatMessage>)
  /** The response body: `choices` (empty when missing). */
  datatype Completion = Completion(choices: seq<Choice>)
  /** How the provider request ended: an exception, or a response body. */
  datatype ProviderOutcome = Failed | Answered(data: Completion)

  // ---------------------------------------------------------------------
  // Effects of one handled event

  datatype Output =
    | Send(to: ClientId, msg: ServerMsg)  // one `send` on one display's socket
    | AskProvider(userTurn: string)       // the request to the advisory provider
    | ForwardAudio(bytes: seq<bv8>)       // a frame written to the transcription stream

  datatype Step = Step(session: SessionData, out: seq<Output>)

  // ---------------------------------------------------------------------
  // The transcript handler (server.js:115-149)

  /** The speaker of the first word; 0 when there are no words or the first
      word carries none. */
  function FirstSpeaker(words: seq<Word>): (speaker: nat)
    ensures |words| > 0 && words[0].speaker.Some? ==> speaker == words[0].speaker.value
    ensures |words| == 0 || words[0].speaker.None? ==> speaker == 0
  {
    if |words| > 0 && words[0].speaker.Some? then words[0].speaker.value else 0
  }

  /** The record built from an event, stamped `now`; none without a first
      alternative. The text is kept even when empty. */
  function Record(ev: ProviderEvent, now: string): (e: Option<Entry>)
    ensures e.None? <==> |ev.alternatives| == 0
    ensures e.Some? ==> && e.value.timestamp == now
                        && e.value.speaker == FirstSpeaker(ev.alternatives[0].words)
                        && e.value.text == ev.alternatives[0].transcript
                        && e.value.isFinal == ev.isFinal
  {
    if |ev.alternatives| == 0 then None
    else
      var alt := ev.alternatives[0];
      Some(Entry(now, FirstSpeaker(alt.words), alt.transcript, ev.isFinal))
  }

  /** The `transcript` message carrying a record. */
  function ToWire(e: Entry): (m: ServerMsg)
    ensures m.Transcript? && m.data.Some?
    ensures m.data.value == TranscriptData(Some(e.timestamp), e.speaker, Some(e.text), e.isFinal)
  {
    Transcript(Some(TranscriptData(Some(e.timestamp), e.speaker, Some(e.text), e.isFinal)))
  }

  /** What an event adds to the log: its record when it is final, else nothing. */
  function Stored(ev: ProviderEvent, now: string): (added: seq<Entry>)
    ensures |added| <= 1
    ensures |added| == 1 <==> |ev.alternatives| > 0 && ev.isFinal
    ensures |added| == 1 ==> Some(added[0]) == Record(ev, now)
  {
    match Record(ev, now)
    case None => []
    case Some(e) => if e.isFinal then [e] else []
  }

  /** One transcript event on the stream owned by connection `owner`. */
  function TranscriptStep(s: SessionData, owner: ClientId, ev: ProviderEvent, now: string): (r: Step)
    ensures r.session.triggers == s.triggers
    ensures r.session.transcripts == s.transcripts + Stored(ev, now)
    ensures |ev.alternatives| == 0 ==> r.out == []
    ensures |ev.alternatives| > 0 ==> r.out == [Send(owner, ToWire(Record(ev, now).value))]
  {
    match Record(ev, now)
    case None => Step(s, [])
    case Some(e) =>
      var log := if e.isFinal then s.transcripts + [e] else s.transcripts;
      Step(s.(transcripts := log), [Send(owner, ToWire(e))])
  }

  /** Every record goes to the connection that owns the stream and nowhere
      else, interim and final alike. */
  lemma TranscriptOnlyToOwner(s: SessionData, owner: ClientId, ev: ProviderEvent, now: string)
    ensures forall o :: o in TranscriptStep(s, owner, ev, now).out ==> o.Send? && o.to == owner
    ensures |TranscriptStep(s, owner, ev, now).out| <= 1
  {
  }

  // ---------------------------------------------------------------------
  // Broadcast to every open client (the `wss.clients.forEach` loops)

  predicate IsOpen(c: Client) {
    c.readyState == OPEN
  }

  function OpenIds(clients: seq<Client>): set<ClientId>
  {
    set c | c in clients && IsOpen(c) :: c.id
  }

  predicate DistinctIds(clients: seq<Client>) {
    forall i, j :: 0 <= i < j < |clients| ==> clients[i].id != clients[j].id
  }

  /** The sends of a broadcast, in client order: one `m` per open client. */
  function Broadcast(clients: seq<Client>, m: ServerMsg): (out: seq<Output>)
    ensures |out| <= |clients|
  {
    if clients == [] then []
    else (if IsOpen(clients[0]) then [Send(clients[0].id, m)] else []) + Broadcast(clients[1..], m)
  }

  lemma OpenIdsCons(clients: seq<Client>)
    requires clients != []
    ensures OpenIds(clients) == OpenIds(clients[..1]) + OpenIds(clients[1..])
  {
    assert clients == clients[..1] + clients[1..];
  }

  /** A broadcast sends only `m`, only to open clients, and reaches every one. */
  lemma {:induction false} BroadcastRecipients(clients: seq<Client>, m: ServerMsg)
    ensures forall o :: o in Broadcast(clients, m) ==> o.Send? && o.msg == m && o.to in OpenIds(clients)
    ensures forall id :: id in OpenIds(clients) ==> Send(id, m) in Broadcast(clients, m)
  {
    if clients != [] {
      BroadcastRecipients(clients[1..], m);
      OpenIdsCons(clients);
    }
  }

  /** When connections are distinct, each open client gets the message exactly
      once and a closed one never. */
  lemma {:induction false} BroadcastOncePerClient(clients: seq<Client>, m: ServerMsg, id: ClientId)
    requires DistinctIds(clients)
    ensures multiset(Broadcast(clients, m))[Send(id, m)] == if id in OpenIds(clients) then 1 else 0
  {
    if clients != [] {
      var tail := clients[1..];
      assert DistinctIds(tail);
      BroadcastOncePerClient(tail, m, id);
      OpenIdsCons(clients);
      if clients[0].id == id {
        assert forall c :: c in tail ==> c.id != id by {
          forall c | c in tail ensures c.id != id {
            var j :| 0 <= j < |tail| && tail[j] == c;
            assert clients[j + 1] == c;
          }
        }
        assert id !in OpenIds(tail);
      }
    }
  }

  /** The forEach loop: sends `m` to each client whose ready state is OPEN. */
  method SendToOpenClients(clients: seq<Client>, m: ServerMsg) returns (out: seq<Output>)
    ensures out == Broadcast(clients, m)
  {
    out := [];
    var i := 0;
    while i < |clients|
      invariant 0 <= i <= |clients|
      invariant out + Broadcast(clients[i..], m) == Broadcast(clients, m)
    {
      assert clients[i..][1..] == clients[i + 1..];
      ghost var head := if IsOpen(clients[i]) then [Send(clients[i].id, m)] else [];
      assert Broadcast(clients[i..], m) == head + Broadcast(clients[i + 1..], m);
      if clients[i].readyState == OPEN {
        out := out + [Send(clients[i].id, m)];
      }
      i := i + 1;
    }
  }

  // ---------------------------------------------------------------------
  // The advisory provider call (server.js:54-83, 194-195)

  /** `callOpenAI`: the response body, or null when the request threw. */
  function CallOpenAI(outcome: ProviderOutcome): (r: Option<Completion>)
    ensures r.None? <==> outcome.Failed?
    ensures outcome.Answered? ==> r == Some(outcome.data)
  {
    match outcome
    case Failed => None
    case Answered(data) => Some(data)
  }

  /** `choices[0].message.content` when it is present and non-empty. */
  function AdvisoryText(reply: Option<Completion>): (text: Option<string>)
    ensures text.Some? <==>
      && reply.Some? && |reply.value.choices| > 0
      && reply.value.choices[0].message.Some?
      && reply.value.choices[0].message.value.content.Some?
      && reply.value.choices[0].message.value.content.value != ""
    ensures text.Some? ==>
      text.value != "" && text == reply.value.choices[0].message.value.content
  {
    if reply.None? || |reply.value.choices| == 0 then None
    else
      match reply.value.choices[0].message
      case None => None
      case Some(msg) =>
        if msg.content.Some? && msg.content.value != "" then msg.content else None
  }

  // ---------------------------------------------------------------------
  // The message dispatcher (server.js:161-241)

  predicate IsTrigger(frame: Frame) {
    frame.Text? && frame.control.Control? && frame.control.kind == "trigger"
  }

  predicate IsRelease(frame: Frame) {
    frame.Text? && frame.control.Control? && frame.control.kind == "release-response"
  }

  /** One frame from connection `sender`. `clients` is every connection with
      its ready state, `dgReadyState` that of the sender's transcription
      stream, `outcome` how the provider call of a trigger ended. */
  function MessageStep(s: SessionData, sender: ClientId, frame: Frame, clients: seq<Client>,
                       dgReadyState: int, outcome: ProviderOutcome, now: string): (r: Step)
    ensures r.session == s
    ensures frame.Binary? ==>
      r.out == if dgReadyState == OPEN then [ForwardAudio(frame.bytes)] else []
    ensures frame.Text? && !IsTrigger(frame) && !IsRelease(frame) ==> r.out == []
    ensures IsRelease(frame) ==> r.out == Broadcast(clients, ReleaseResponse(now))
    ensures IsTrigger(frame) ==>
      && |r.out| >= 1
      && r.out[0] == AskProvider(UserTurn(frame.control.trigger, CompileContext(s.transcripts)))
      && r.out[1..] == match AdvisoryText(CallOpenAI(outcome))
                       case Some(text) => Broadcast(clients, OpenAIResponse(text, now))
                       case None => [Send(sender, OpenAIError(NoValidResponse))]
  {
    match frame
    case Binary(bytes) =>
      Step(s, if dgReadyState == OPEN then [ForwardAudio(bytes)] else [])
    case Text(Malformed) => Step(s, [])
    case Text(Control(kind, trigger)) =>
      if kind == "trigger" then
        var context := CompileContext(s.transcripts);
        var ask := AskProvider(UserTurn(trigger, context));
        match AdvisoryText(CallOpenAI(outcome))
        case Some(text) => Step(s, [ask] + Broadcast(clients, OpenAIResponse(text, now)))
        case None => Step(s, [ask, Send(sender, OpenAIError(NoValidResponse))])
      else if kind == "release-response" then
        Step(s, Broadcast(clients, ReleaseResponse(now)))
      else Step(s, [])
  }

  /** A trigger ends in exactly one of two ways. With advisory text, every open
      client is sent the `openai-response` carrying it (once, when connections
      are distinct) and nobody gets an error.
      Without (failed call, no choice, empty content), only the sender gets
      `openai-error` and nothing is broadcast. */
  lemma TriggerOutcome(s: SessionData, sender: ClientId, frame: Frame, clients: seq<Client>,
                       dgReadyState: int, outcome: ProviderOutcome, now: string)
    requires IsTrigger(frame)
    ensures var r := MessageStep(s, sender, frame, clients, dgReadyState, outcome, now);
      match AdvisoryText(CallOpenAI(outcome))
      case Some(text) =>
        && (forall id :: id in OpenIds(clients) ==> Send(id, OpenAIResponse(text, now)) in r.out)
        && (forall o :: o in r.out[1..] ==> o.Send? && o.msg == OpenAIResponse(text, now))
        && (DistinctIds(clients) ==> forall id :: id in OpenIds(clients) ==>
              multiset(r.out)[Send(id, OpenAIResponse(text, now))] == 1)
      case None =>
        && r.out[1..] == [Send(sender, OpenAIError(NoValidResponse))]
        && (forall o :: o in r.out ==> !(o.Send? && o.msg.OpenAIResponse?))
  {
    var text := AdvisoryText(CallOpenAI(outcome));
    if text.Some? {
      var m := OpenAIResponse(text.value, now);
      BroadcastRecipients(clients, m);
      if DistinctIds(clients) {
        var r := MessageStep(s, sender, frame, clients, dgReadyState, outcome, now);
        assert r.out == [r.out[0]] + Broadcast(clients, m);
        forall id | id in OpenIds(clients) ensures multiset(r.out)[Send(id, m)] == 1 {
          BroadcastOncePerClient(clients, m, id);
        }
      }
    }
  }

  // ---------------------------------------------------------------------
  // Runs of events: the session log only grows, by the finals, in order

  datatype Event =
    | FromStream(owner: ClientId, ev: ProviderEvent, now: string)
    | FromClient(sender: ClientId, frame: Frame, clients: seq<Client>,
                 dgReadyState: int, outcome: ProviderOutcome, now: string)
    | Disconnect(conn: ClientId)  // writes the log; `sessionData` is not reset

  function Apply(s: SessionData, e: Event): Step
  {
    match e
    case FromStream(owner, ev, now) => TranscriptStep(s, owner, ev, now)
    case FromClient(sender, frame, clients, dgReadyState, outcome, now) =>
      MessageStep(s, sender, frame, clients, dgReadyState, outcome, now)
    case Disconnect(_) => Step(s, [])
  }

  function Run(s: SessionData, events: seq<Event>): SessionData
    decreases |events|
  {
    if events == [] then s else Run(Apply(s, events[0]).session, events[1..])
  }

  /** The records an event adds to the log: those of a final transcript. */
  function Added(e: Event): seq<Entry>
  {
    match e
    case FromStream(_, ev, now) => Stored(ev, now)
    case _ => []
  }

  /** The records of the final transcript events, in arrival order. */
  function Finals(events: seq<Event>): seq<Entry>
  {
    if events == [] then [] else Added(events[0]) + Finals(events[1..])
  }

  lemma ApplyAdds(s: SessionData, e: Event)
    ensures Apply(s, e).session == SessionData(s.triggers, s.transcripts + Added(e))
  {
    match e
    case FromStream(_, ev, now) =>
    case FromClient(sender, frame, clients, dgReadyState, outcome, now) =>
      assert Apply(s, e).session == s;
    case Disconnect(_) =>
  }

  /** After any run, the log is the old log followed by exactly the final
      records in arrival order: nothing removed, reordered or duplicated, no
      final dropped. The trigger list never changes. */
  lemma {:induction false} RunAppendsFinals(s: SessionData, events: seq<Event>)
    ensures Run(s, events) == SessionData(s.triggers, s.transcripts + Finals(events))
    decreases |events|
  {
    if events != [] {
      ApplyAdds(s, events[0]);
      RunAppendsFinals(Apply(s, events[0]).session, events[1..]);
      assert s.transcripts + Added(events[0]) + Finals(events[1..])
          == s.transcripts + Finals(events);
    }
  }

  /** Speaker 0's interim then final utterance leaves exactly one record. */
  lemma InterimThenFinalStoredOnce(c: ClientId, text: string, t1: string, t2: string)
    ensures var alt := Alternative(text, [Word(Some(0))]);
      Run(Empty, [FromStream(c, ProviderEvent([alt], false), t1),
                  FromStream(c, ProviderEvent([alt], true), t2)])
      == SessionData([], [Entry(t2, 0, text, true)])
  {
    var alt := Alternative(text, [Word(Some(0))]);
    var evs := [FromStream(c, ProviderEvent([alt], false), t1),
                FromStream(c, ProviderEvent([alt], true), t2)];
    RunAppendsFinals(Empty, evs);
    assert evs[1..][1..] == [];
    assert Finals(evs[1..]) == Stored(ProviderEvent([alt], true), t2);
    assert Finals(evs) == Finals(evs[1..]);
  }

  // ---------------------------------------------------------------------
  // The relay object: `sessionData` updated in place by the handlers

  class Relay {
    var triggers: seq<TriggerEvent>
    var transcripts: seq<Entry>

    function Data(): SessionData
      reads this
    {
      SessionData(triggers, transcripts)
    }

    constructor ()
      ensures Data() == Empty
    {
      triggers := [];
      transcripts := [];
    }

    /** The transcript listener: pushes a final onto the log, then sends the
        record to the owning connection. */
    method OnTranscript(owner: ClientId, ev: ProviderEvent, now: string) returns (out: seq<Output>)
      modifies this
      ensures Data() == TranscriptStep(old(Data()), owner, ev, now).session
      ensures out == TranscriptStep(old(Data()), owner, ev, now).out
    {
      out := [];
      if |ev.alternatives| > 0 {
        var alt := ev.alternatives[0];
        var speaker := FirstSpeaker(alt.words);
        var entry := Entry(now, speaker, alt.transcript, ev.isFinal);
        if entry.isFinal {
          transcripts := transcripts + [entry];
        }
        out := [Send(owner, ToWire(entry))];
      }
    }

    /** The `message` listener. It reads the log and changes nothing in it. */
    method OnMessage(sender: ClientId, frame: Frame, clients: seq<Client>, dgReadyState: int,
                     outcome: ProviderOutcome, now: string) returns (out: seq<Output>)
      ensures out == MessageStep(Data(), sender, frame, clients, dgReadyState, outcome, now).out
    {
      match frame {
        case Binary(bytes) =>
          out := if dgReadyState == OPEN then [ForwardAudio(bytes)] else [];
        case Text(Malformed) =>
          out := [];
        case Text(Control(kind, trigger)) =>
          if kind == "trigger" {
            var context := CompileContext(transcripts);
            out := [AskProvider(UserTurn(trigger, context))];
            var reply := CallOpenAI(outcome);
            var text := AdvisoryText(reply);
            if text.Some? {
              var sends := SendToOpenClients(clients, OpenAIResponse(text.value, now));
              out := out + sends;
            } else {
              out := out + [Send(sender, OpenAIError(NoValidResponse))];
            }
          } else if kind == "release-response" {
            out := SendToOpenClients(clients, ReleaseResponse(now));
          } else {
            out := [];
          }
      }
    }

    /** The `close` listener: the value written to the session file is the
        whole log, which stays in place for later connections. */
    method OnClose() returns (written: SessionData)
      ensures written == Data()
    {
      written := SessionData(triggers, transcripts);
    }
  }
}
