/**
 * The facilitator display (public/app.js, class InteractionObserver) without
 * the DOM: the transcript container is a sequence of lines, `currentInterim`
 * maps a speaker to the index of its live interim line, and the release
 * button is a boolean. `Screen` is the value of all the object's fields; the
 * functions below give the screen after each handler, and the class
 * InteractionObserver updates its fields in place to match them.
 */
module Facilitator {
  import opened Protocol

  /** One child of the transcript container. Times are opaque strings. */
  datatype Line =
    | SpeakerLine(time: string, speaker: nat, text: string)     // `[t] Speaker s: text`
    | TriggerLine(time: string, trigger: string, text: string) // `[t] TRIGGER: text`
    | CoachLine(time: string, text: string)                     // `[t] COACH: text`

  datatype Screen = Screen(
    lines: seq<Line>,
    currentInterim: map<nat, nat>,
    pendingResponse: Option<string>,
    releaseDisabled: bool,
    isProcessingAudio: bool,
    sent: seq<ClientMsg>)   // what the display wrote to its socket, in order

  /** After the constructor: nothing shown, nothing pending, button disabled,
      audio not yet flowing. */
  const Initial := Screen([], map[], None, true, false, [])

  /** Every tracked speaker points at an existing line that is that speaker's. */
  predicate Tracked(lines: seq<Line>, interim: map<nat, nat>)
  {
    forall sp :: sp in interim ==>
      interim[sp] < |lines| && lines[interim[sp]].SpeakerLine? && lines[interim[sp]].speaker == sp
  }

  /** The object invariant: tracking is sound, and the release button is
      enabled exactly when a response is pending. */
  predicate Consistent(d: Screen)
  {
    Tracked(d.lines, d.currentInterim) && (d.releaseDisabled <==> d.pendingResponse.None?)
  }

  /** A transcript the guard clauses let through: present, with a timestamp
      and a non-empty text. */
  predicate Displayable(data: Option<TranscriptData>)
  {
    data.Some? && data.value.timestamp.Some? && data.value.text.Some? && data.value.text.value != ""
  }

  function DisplayLine(t: TranscriptData): Line
    requires t.timestamp.Some? && t.text.Some?
  {
    SpeakerLine(t.timestamp.value, t.speaker, t.text.value)
  }

  // ---------------------------------------------------------------------
  // updateTranscript (public/app.js:218-262)

  /** The screen after `updateTranscript(data)`. Only the lines and the
      tracking change; no line is ever removed; a line not tracked as an
      interim keeps its content; and a speaker other than the event's keeps
      its tracking and its line. */
  function Updated(d: Screen, data: Option<TranscriptData>): (r: Screen)
    requires Tracked(d.lines, d.currentInterim)
    ensures Tracked(r.lines, r.currentInterim)
    ensures r.(lines := d.lines, currentInterim := d.currentInterim) == d
    ensures |d.lines| <= |r.lines| <= |d.lines| + 1
    ensures forall i :: 0 <= i < |d.lines| && i !in d.currentInterim.Values ==> r.lines[i] == d.lines[i]
    ensures forall sp :: sp in d.currentInterim && (data.None? || sp != data.value.speaker) ==>
      && sp in r.currentInterim && r.currentInterim[sp] == d.currentInterim[sp]
      && r.lines[d.currentInterim[sp]] == d.lines[d.currentInterim[sp]]
    ensures forall sp :: sp in r.currentInterim && (data.None? || sp != data.value.speaker) ==>
      sp in d.currentInterim
  {
    if !Displayable(data) then d
    else
      var t := data.value;
      var line := DisplayLine(t);
      if !t.isFinal then
        if t.speaker in d.currentInterim then
          d.(lines := d.lines[d.currentInterim[t.speaker] := line])
        else
          d.(lines := d.lines + [line], currentInterim := d.currentInterim[t.speaker := |d.lines|])
      else
        d.(lines := d.lines + [line], currentInterim := d.currentInterim - {t.speaker})
  }

  /** Missing data, a missing timestamp or text, or an empty text change nothing. */
  lemma IgnoredTranscript(d: Screen, data: Option<TranscriptData>)
    requires Tracked(d.lines, d.currentInterim)
    requires !Displayable(data)
    ensures Updated(d, data) == d
  {
  }

  /** An interim for a tracked speaker rewrites that speaker's line in place. */
  lemma InterimOverwrites(d: Screen, t: TranscriptData)
    requires Tracked(d.lines, d.currentInterim)
    requires Displayable(Some(t)) && !t.isFinal && t.speaker in d.currentInterim
    ensures var r := Updated(d, Some(t));
      && |r.lines| == |d.lines|
      && r.lines == d.lines[d.currentInterim[t.speaker] := DisplayLine(t)]
      && r.currentInterim == d.currentInterim
  {
  }

  /** An interim for an untracked speaker appends one line and tracks it. */
  lemma InterimOpens(d: Screen, t: TranscriptData)
    requires Tracked(d.lines, d.currentInterim)
    requires Displayable(Some(t)) && !t.isFinal && t.speaker !in d.currentInterim
    ensures var r := Updated(d, Some(t));
      && r.lines == d.lines + [DisplayLine(t)]
      && r.currentInterim == d.currentInterim[t.speaker := |d.lines|]
  {
  }

  /** A final always appends one new line and ends the speaker's tracking;
      the interim line it supersedes stays as it was. */
  lemma FinalAppends(d: Screen, t: TranscriptData)
    requires Tracked(d.lines, d.currentInterim)
    requires Displayable(Some(t)) && t.isFinal
    ensures var r := Updated(d, Some(t));
      && r.lines == d.lines + [DisplayLine(t)]
      && t.speaker !in r.currentInterim
      && r.currentInterim == d.currentInterim - {t.speaker}
  {
  }

  /** Interim, a revised interim, then the final, for an untracked speaker:
      two lines are added, the first holding the last interim text. */
  lemma InterimsThenFinal(d: Screen, sp: nat, ts1: string, ts2: string, ts3: string,
                          a: string, b: string, c: string)
    requires Tracked(d.lines, d.currentInterim)
    requires sp !in d.currentInterim && a != "" && b != "" && c != ""
    ensures var d1 := Updated(d, Some(TranscriptData(Some(ts1), sp, Some(a), false)));
      var d2 := Updated(d1, Some(TranscriptData(Some(ts2), sp, Some(b), false)));
      var d3 := Updated(d2, Some(TranscriptData(Some(ts3), sp, Some(c), true)));
      && d3.lines == d.lines + [SpeakerLine(ts2, sp, b), SpeakerLine(ts3, sp, c)]
      && d3.currentInterim == d.currentInterim
  {
  }

  // ---------------------------------------------------------------------
  // onmessage (public/app.js:28-56)

  /** The screen after the socket's `onmessage` handler. */
  function Received(d: Screen, inb: Inbound): (r: Screen)
    requires Tracked(d.lines, d.currentInterim)
    ensures Tracked(r.lines, r.currentInterim)
    ensures inb.Parsed? && inb.msg.OpenAIResponse? ==>
      r == d.(pendingResponse := Some(inb.msg.text), releaseDisabled := false)
    ensures inb.Parsed? && inb.msg.Transcript? ==> r == Updated(d, inb.msg.data)
    ensures !(inb.Parsed? && (inb.msg.OpenAIResponse? || inb.msg.Transcript?)) ==> r == d
  {
    match inb
    case Unparsable => d
    case Parsed(msg) =>
      match msg
      case Transcript(data) => Updated(d, data)
      case OpenAIResponse(text, _) => d.(pendingResponse := Some(text), releaseDisabled := false)
      case _ => d
  }

  // ---------------------------------------------------------------------
  // The release button (public/app.js:91-132)

  /** The screen after a click on the release button, `wsOpen` telling whether
      the socket is open and `now` the click's time. */
  function Released(d: Screen, wsOpen: bool, now: string): (r: Screen)
    ensures !Truthy(d.pendingResponse) ==> r == d
    ensures Truthy(d.pendingResponse) ==>
      && r.lines == d.lines + [CoachLine(now, d.pendingResponse.value)]
      && r.sent == d.sent + (if wsOpen then [ReleaseRequest(now)] else [])
      && r.pendingResponse.None? && r.releaseDisabled
      && r.currentInterim == d.currentInterim && r.isProcessingAudio == d.isProcessingAudio
  {
    if !Truthy(d.pendingResponse) then d
    else
      d.(lines := d.lines + [CoachLine(now, d.pendingResponse.value)],
         sent := d.sent + (if wsOpen then [ReleaseRequest(now)] else []),
         pendingResponse := None,
         releaseDisabled := true)
  }

  // ---------------------------------------------------------------------
  // Trigger buttons and the audio flag (public/app.js:5, 19-22, 59-89, 186, 214)

  /** The screen after a click on a trigger button: a trigger line, audio
      paused, and the trigger sent when the socket is open. */
  function Triggered(d: Screen, trigger: string, text: string, wsOpen: bool, now: string): (r: Screen)
    ensures r.lines == d.lines + [TriggerLine(now, trigger, text)]
    ensures !r.isProcessingAudio
    ensures r.sent == d.sent + (if wsOpen then [TriggerRequest(trigger, now)] else [])
    ensures r.currentInterim == d.currentInterim && r.pendingResponse == d.pendingResponse
    ensures r.releaseDisabled == d.releaseDisabled
  {
    d.(lines := d.lines + [TriggerLine(now, trigger, text)],
       isProcessingAudio := false,
       sent := d.sent + (if wsOpen then [TriggerRequest(trigger, now)] else []))
  }

  /** Whether a captured audio buffer is sent (public/app.js:186): never while
      the socket is not open, never while audio is paused. */
  predicate SendsAudio(d: Screen, wsOpen: bool): (sends: bool)
    ensures sends ==> wsOpen
    ensures sends ==> d.isProcessingAudio
  {
    wsOpen && d.isProcessingAudio
  }

  datatype Event =
    | Message(inb: Inbound)
    | ReleaseClick(wsOpen: bool, now: string)
    | TriggerClick(trigger: string, text: string, wsOpen: bool, now: string)
    | AudioResumed(wasProcessing: bool)  // the timer scheduled by a trigger click
    | AudioReady                         // end of setupAudioCapture
    | SocketClosed

  function Apply(d: Screen, e: Event): (r: Screen)
    requires Tracked(d.lines, d.currentInterim)
  {
    match e
    case Message(inb) => Received(d, inb)
    case ReleaseClick(wsOpen, now) => Released(d, wsOpen, now)
    case TriggerClick(trigger, text, wsOpen, now) => Triggered(d, trigger, text, wsOpen, now)
    case AudioResumed(was) => d.(isProcessingAudio := was)
    case AudioReady => d.(isProcessingAudio := true)
    case SocketClosed => d.(isProcessingAudio := false)
  }

  /** Every handler keeps the object invariant. */
  lemma ApplyKeepsConsistent(d: Screen, e: Event)
    requires Consistent(d)
    ensures Tracked(Apply(d, e).lines, Apply(d, e).currentInterim)
    ensures Consistent(Apply(d, e))
  {
  }

  function Run(d: Screen, events: seq<Event>): (r: Screen)
    requires Consistent(d)
    ensures Consistent(r)
    decreases |events|
  {
    if events == [] then d
    else
      ApplyKeepsConsistent(d, events[0]);
      Run(Apply(d, events[0]), events[1..])
  }

  /** A trigger click pauses audio, and only the restore timer or the end of
      audio setup resumes it: through any run of other handlers, including
      further clicks, messages, releases and the socket closing, no buffer is
      sent. A click while the socket is not open schedules no timer, so after
      it audio stays off until setup completes. */
  lemma {:induction false} PausedStaysPaused(d: Screen, trigger: string, text: string, wsOpen: bool,
                                             now: string, events: seq<Event>)
    requires Consistent(d)
    requires forall i :: 0 <= i < |events| ==> !events[i].AudioResumed? && !events[i].AudioReady?
    ensures forall open :: !SendsAudio(Run(Triggered(d, trigger, text, wsOpen, now), events), open)
  {
    ApplyKeepsConsistent(d, TriggerClick(trigger, text, wsOpen, now));
    OthersKeepPaused(Triggered(d, trigger, text, wsOpen, now), events);
  }

  lemma {:induction false} OthersKeepPaused(d: Screen, events: seq<Event>)
    requires Consistent(d) && !d.isProcessingAudio
    requires forall i :: 0 <= i < |events| ==> !events[i].AudioResumed? && !events[i].AudioReady?
    ensures !Run(d, events).isProcessingAudio
    decreases |events|
  {
    if events != [] {
      ApplyKeepsConsistent(d, events[0]);
      OthersKeepPaused(Apply(d, events[0]), events[1..]);
    }
  }

  /** From the start, whatever arrives: tracking stays sound and the release
      button is enabled exactly when a response is pending. */
  lemma ReachableIsConsistent(events: seq<Event>)
    ensures Consistent(Initial)
    ensures Consistent(Run(Initial, events))
  {
  }

  // ---------------------------------------------------------------------
  // The object itself

  class InteractionObserver {
    var lines: seq<Line>
    var currentInterim: map<nat, nat>
    var pendingResponse: Option<string>
    var releaseDisabled: bool
    var isProcessingAudio: bool
    var sent: seq<ClientMsg>

    function View(): Screen
      reads this
    {
      Screen(lines, currentInterim, pendingResponse, releaseDisabled, isProcessingAudio, sent)
    }

    ghost predicate Valid()
      reads this
    {
      Consistent(View())
    }

    constructor ()
      ensures View() == Initial && Valid()
    {
      lines := [];
      currentInterim := map[];
      pendingResponse := None;
      releaseDisabled := true;
      isProcessingAudio := false;
      sent := [];
    }

    method UpdateTranscript(data: Option<TranscriptData>)
      requires Valid()
      modifies this
      ensures Valid() && View() == Updated(old(View()), data)
    {
      if data.None? || data.value.timestamp.None? || data.value.text.None? {
        return;
      }
      if data.value.text.value == "" {
        return;
      }
      var t := data.value;
      var line := SpeakerLine(t.timestamp.value, t.speaker, t.text.value);
      if !t.isFinal {
        if t.speaker in currentInterim {
          lines := lines[currentInterim[t.speaker] := line];
        } else {
          lines := lines + [line];
          currentInterim := currentInterim[t.speaker := |lines| - 1];
        }
      } else {
        lines := lines + [line];
        currentInterim := currentInterim - {t.speaker};
      }
    }

    method OnMessage(inb: Inbound)
      requires Valid()
      modifies this
      ensures Valid() && View() == Received(old(View()), inb)
    {
      match inb {
        case Unparsable =>
        case Parsed(msg) =>
          if msg.Transcript? {
            UpdateTranscript(msg.data);
          } else if msg.OpenAIResponse? {
            pendingResponse := Some(msg.text);
            releaseDisabled := false;
          }
      }
    }

    method OnReleaseClick(wsOpen: bool, now: string)
      requires Valid()
      modifies this
      ensures Valid() && View() == Released(old(View()), wsOpen, now)
    {
      if pendingResponse.Some? && pendingResponse.value != "" {
        lines := lines + [CoachLine(now, pendingResponse.value)];
        if wsOpen {
          sent := sent + [ReleaseRequest(now)];
        }
        pendingResponse := None;
        releaseDisabled := true;
      }
    }

    /** Returns the flag value the scheduled timer restores, or None when the
        socket is not open and no timer is scheduled. */
    method OnTriggerClick(trigger: string, text: string, wsOpen: bool, now: string)
      returns (restore: Option<bool>)
      requires Valid()
      modifies this
      ensures Valid() && View() == Triggered(old(View()), trigger, text, wsOpen, now)
      ensures restore == if wsOpen then Some(old(isProcessingAudio)) else None
    {
      lines := lines + [TriggerLine(now, trigger, text)];
      var wasProcessing := isProcessingAudio;
      isProcessingAudio := false;
      restore := None;
      if wsOpen {
        sent := sent + [TriggerRequest(trigger, now)];
        restore := Some(wasProcessing);
      }
    }

    method ResumeAudio(wasProcessing: bool)
      modifies this
      ensures View() == old(View()).(isProcessingAudio := wasProcessing)
    {
      isProcessingAudio := wasProcessing;
    }

    method OnAudioReady()
      modifies this
      ensures View() == old(View()).(isProcessingAudio := true)
    {
      isProcessingAudio := true;
    }

    method OnSocketClose()
      modifies this
      ensures View() == old(View()).(isProcessingAudio := false)
    {
      isProcessingAudio := false;
    }
  }
}
