/**
 * The participant display (public/participant.js) without the DOM: two
 * module variables, `pendingCoachMessage` and `releasePending`, form a latch
 * that shows an advisory once both the advisory and the facilitator's
 * release have arrived, in either order, and then resets.
 */
module Participant {
  import opened Protocol

  datatype Latch = Latch(pendingCoachMessage: Option<string>, releasePending: bool)

  /** The module's initial state: nothing pending, no release seen. */
  const Initial := Latch(None, false)

  /** The latch after a handler, and the text it put in the coach box, if any. */
  datatype Reaction = Reaction(latch: Latch, shown: Option<string>)

  /** Never a (truthy) advisory waiting while a release is also waiting. */
  predicate NeverBoth(l: Latch)
  {
    !(Truthy(l.pendingCoachMessage) && l.releasePending)
  }

  predicate IsAdvisory(inb: Inbound)
  {
    inb.Parsed? && inb.msg.OpenAIResponse?
  }

  predicate IsRelease(inb: Inbound)
  {
    inb.Parsed? && inb.msg.ReleaseResponse?
  }

  /** `showCoachMessage`: shows the pending text and clears both variables. */
  function Show(l: Latch): (r: Reaction)
    requires l.pendingCoachMessage.Some?
    ensures r.shown == l.pendingCoachMessage
    ensures !Truthy(r.latch.pendingCoachMessage) && !r.latch.releasePending
  {
    Reaction(Initial, l.pendingCoachMessage)
  }

  /** The latch after the socket's `onmessage` handler (participant.js:10-41). */
  function Received(l: Latch, inb: Inbound): (r: Reaction)
    ensures r.shown.Some? ==> r.latch == Initial
    ensures IsAdvisory(inb) || IsRelease(inb) ==> NeverBoth(r.latch)
    ensures IsAdvisory(inb) ==>
      && (r.shown.Some? <==> l.releasePending)
      && (r.shown.Some? ==> r.shown == Some(inb.msg.text))
      && (r.shown.None? ==> r.latch == Latch(Some(inb.msg.text), false))
    ensures IsRelease(inb) ==>
      && (r.shown.Some? <==> Truthy(l.pendingCoachMessage))
      && (r.shown.Some? ==> r.shown == l.pendingCoachMessage)
      && (r.shown.None? ==> r.latch == l.(releasePending := true))
    ensures !IsAdvisory(inb) && !IsRelease(inb) ==> r == Reaction(l, None)
  {
    match inb
    case Parsed(OpenAIResponse(text, _)) =>
      var l1 := l.(pendingCoachMessage := Some(text));
      if l1.releasePending then Show(l1) else Reaction(l1, None)
    case Parsed(ReleaseResponse(_)) =>
      var l1 := l.(releasePending := true);
      if Truthy(l1.pendingCoachMessage) then Show(l1) else Reaction(l1, None)
    case _ => Reaction(l, None)
  }

  /** The latch after a run of messages, and every text shown, in order. */
  datatype Trace = Trace(latch: Latch, shown: seq<string>)

  function Replay(l: Latch, msgs: seq<Inbound>): Trace
    decreases |msgs|
  {
    if msgs == [] then Trace(l, [])
    else
      var r := Received(l, msgs[0]);
      var rest := Replay(r.latch, msgs[1..]);
      Trace(rest.latch, (if r.shown.Some? then [r.shown.value] else []) + rest.shown)
  }

  /** The latch never holds both a waiting advisory and a waiting release,
      whatever messages arrive. */
  lemma {:induction false} ReplayNeverBoth(l: Latch, msgs: seq<Inbound>)
    requires NeverBoth(l)
    ensures NeverBoth(Replay(l, msgs).latch)
    decreases |msgs|
  {
    if msgs != [] {
      ReplayNeverBoth(Received(l, msgs[0]).latch, msgs[1..]);
    }
  }

  function Advisory(text: string, ts: string): Inbound { Parsed(OpenAIResponse(text, ts)) }
  function Release(ts: string): Inbound { Parsed(ReleaseResponse(ts)) }

  /** With nothing waiting, advisory-then-release and release-then-advisory
      both show the advisory once and leave the initial state. */
  lemma EitherOrder(l: Latch, text: string, ts1: string, ts2: string)
    requires !Truthy(l.pendingCoachMessage) && !l.releasePending
    requires text != ""
    ensures Replay(l, [Advisory(text, ts1), Release(ts2)]) == Trace(Initial, [text])
    ensures Replay(l, [Release(ts2), Advisory(text, ts1)]) == Trace(Initial, [text])
  {
    var a, b := Advisory(text, ts1), Release(ts2);
    assert [a, b][1..] == [b] && [b, a][1..] == [a];
    assert [a][1..] == [] && [b][1..] == [];
    // advisory first: it waits, then the release shows it
    var waiting := Latch(Some(text), false);
    assert Received(l, a) == Reaction(waiting, None);
    assert Received(waiting, b) == Reaction(Initial, Some(text));
    assert Replay(waiting, [b]) == Trace(Initial, [text]);
    // release first: it latches, then the advisory is shown at once
    var latched := l.(releasePending := true);
    assert Received(l, b) == Reaction(latched, None);
    assert Received(latched, a) == Reaction(Initial, Some(text));
    assert Replay(latched, [a]) == Trace(Initial, [text]);
  }

  /** Two advisories before the release: only the later one is shown. */
  lemma LastAdvisoryWins(l: Latch, t1: string, t2: string, ts1: string, ts2: string, ts3: string)
    requires !l.releasePending && t2 != ""
    ensures Replay(l, [Advisory(t1, ts1), Advisory(t2, ts2), Release(ts3)]) == Trace(Initial, [t2])
  {
    var msgs := [Advisory(t1, ts1), Advisory(t2, ts2), Release(ts3)];
    assert msgs[1..] == [Advisory(t2, ts2), Release(ts3)];
    assert msgs[1..][1..] == [Release(ts3)];
    assert msgs[1..][1..][1..] == [];
    var w1, w2 := Latch(Some(t1), false), Latch(Some(t2), false);
    assert Received(l, msgs[0]) == Reaction(w1, None);
    assert Received(w1, msgs[1]) == Reaction(w2, None);
    assert Received(w2, msgs[2]) == Reaction(Initial, Some(t2));
    assert Replay(w2, msgs[1..][1..]) == Trace(Initial, [t2]);
    assert Replay(w1, msgs[1..]) == Trace(Initial, [t2]);
  }

  /** An empty advisory is not shown on release: both stay waiting, and the
      next advisory is then shown at once. */
  lemma EmptyAdvisoryWaits(text: string, ts1: string, ts2: string, ts3: string)
    ensures Replay(Initial, [Advisory("", ts1), Release(ts2)]) == Trace(Latch(Some(""), true), [])
    ensures Received(Latch(Some(""), true), Advisory(text, ts3)) == Reaction(Initial, Some(text))
  {
    var a, b := Advisory("", ts1), Release(ts2);
    assert [a, b][1..] == [b] && [b][1..] == [];
    var waiting := Latch(Some(""), false);
    assert Received(Initial, a) == Reaction(waiting, None);
    assert Received(waiting, b) == Reaction(Latch(Some(""), true), None);
    assert Replay(waiting, [b]) == Trace(Latch(Some(""), true), []);
  }

  /** The participant page: its two module variables and the coach box. */
  class ParticipantPage {
    var pendingCoachMessage: Option<string>
    var releasePending: bool
    var coachBox: Option<string>   // the text the coach box shows; None while hidden

    function State(): Latch
      reads this
    {
      Latch(pendingCoachMessage, releasePending)
    }

    constructor ()
      ensures State() == Initial && coachBox.None?
    {
      pendingCoachMessage := None;
      releasePending := false;
      coachBox := None;
    }

    method ShowCoachMessage()
      requires pendingCoachMessage.Some?
      modifies this
      ensures coachBox == old(pendingCoachMessage) && State() == Initial
    {
      coachBox := pendingCoachMessage;
      pendingCoachMessage := None;
      releasePending := false;
    }

    method OnMessage(inb: Inbound)
      modifies this
      ensures var r := Received(old(State()), inb);
        State() == r.latch && coachBox == if r.shown.Some? then r.shown else old(coachBox)
    {
      match inb {
        case Parsed(OpenAIResponse(text, _)) =>
          pendingCoachMessage := Some(text);
          if releasePending {
            ShowCoachMessage();
          }
        case Parsed(ReleaseResponse(_)) =>
          releasePending := true;
          if pendingCoachMessage.Some? && pendingCoachMessage.value != "" {
            ShowCoachMessage();
          }
        case _ =>
      }
    }
  }
}
