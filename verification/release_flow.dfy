/**
 * The two-phase visibility gate across the three components: an advisory
 * broadcast by the relay is held by both displays, and only the
 * facilitator's release, relayed to every open connection, puts it on the
 * participant's screen.
 */
module ReleaseFlow {
  import opened Protocol
  import opened SessionLog
  import Server
  import Facilitator
  import Participant

  /** A stored final reaches its owner's facilitator display as it was
      recorded: a non-empty final adds one speaker line with the record's time,
      speaker and text and ends that speaker's interim, while an empty final,
      which the relay stores and sends all the same, leaves the screen as it
      was. */
  lemma FinalShownOnOwnerDisplay(d: Facilitator.Screen, e: Entry)
    requires Facilitator.Tracked(d.lines, d.currentInterim)
    requires e.isFinal
    ensures var r := Facilitator.Updated(d, Server.ToWire(e).data);
      if e.text != "" then
        && r.lines == d.lines + [Facilitator.SpeakerLine(e.timestamp, e.speaker, e.text)]
        && r.currentInterim == d.currentInterim - {e.speaker}
      else r == d
  {
  }

  /** An interim record reaches the display as the speaker's one live line:
      a speaker already showing an interim has that line rewritten with the
      record's time and text, and otherwise one line is appended and tracked. */
  lemma InterimShownOnOwnerDisplay(d: Facilitator.Screen, e: Entry)
    requires Facilitator.Tracked(d.lines, d.currentInterim)
    requires !e.isFinal && e.text != ""
    ensures var r := Facilitator.Updated(d, Server.ToWire(e).data);
      var line := Facilitator.SpeakerLine(e.timestamp, e.speaker, e.text);
      if e.speaker in d.currentInterim then
        r.lines == d.lines[d.currentInterim[e.speaker] := line] && r.currentInterim == d.currentInterim
      else
        r.lines == d.lines + [line] && r.currentInterim == d.currentInterim[e.speaker := |d.lines|]
  {
  }

  /** A trigger whose provider call yields `text`: every open connection is
      sent the advisory; the facilitator display then holds it with the
      release button enabled, and a participant with no release waiting holds
      it without showing it. */
  lemma AdvisoryIsHeld(s: SessionData, sender: ClientId, trigger: string, clients: seq<Server.Client>,
                       dgReadyState: int, outcome: Server.ProviderOutcome, now: string,
                       text: string, conn: ClientId, d: Facilitator.Screen, l: Participant.Latch)
    requires Server.AdvisoryText(Server.CallOpenAI(outcome)) == Some(text)
    requires conn in Server.OpenIds(clients)
    requires Facilitator.Consistent(d) && !l.releasePending
    ensures var step := Server.MessageStep(s, sender, Encode(TriggerRequest(trigger, now)),
                                           clients, dgReadyState, outcome, now);
      Server.Send(conn, OpenAIResponse(text, now)) in step.out
    ensures var d1 := Facilitator.Received(d, Parsed(OpenAIResponse(text, now)));
      d1.pendingResponse == Some(text) && !d1.releaseDisabled && Truthy(d1.pendingResponse)
    ensures Participant.Received(l, Parsed(OpenAIResponse(text, now)))
      == Participant.Reaction(Participant.Latch(Some(text), false), None)
  {
    Server.TriggerOutcome(s, sender, Encode(TriggerRequest(trigger, now)), clients, dgReadyState, outcome, now);
  }

  /** The facilitator's release with an open socket sends one release request;
      the relay turns it into a release sent to every open connection; and a
      participant holding a non-empty advisory shows exactly that advisory and
      resets. */
  lemma ReleaseShowsHeldAdvisory(d: Facilitator.Screen, now: string, s: SessionData, sender: ClientId,
                                 clients: seq<Server.Client>, dgReadyState: int,
                                 outcome: Server.ProviderOutcome, conn: ClientId, l: Participant.Latch)
    requires Truthy(d.pendingResponse)
    requires conn in Server.OpenIds(clients)
    requires Truthy(l.pendingCoachMessage)
    ensures var d1 := Facilitator.Released(d, true, now);
      && d1.sent == d.sent + [ReleaseRequest(now)]
      && d1.pendingResponse.None? && d1.releaseDisabled
    ensures var step := Server.MessageStep(s, sender, Encode(ReleaseRequest(now)), clients,
                                           dgReadyState, outcome, now);
      && step.session == s
      && Server.Send(conn, ReleaseResponse(now)) in step.out
    ensures Participant.Received(l, Parsed(ReleaseResponse(now)))
      == Participant.Reaction(Participant.Initial, l.pendingCoachMessage)
  {
    Server.BroadcastRecipients(clients, ReleaseResponse(now));
  }
}
