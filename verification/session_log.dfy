/**
 * The relay's process-wide `sessionData` and the pure text it derives from
 * it: one line per stored transcript, the conversation context those lines
 * are joined into, and the user turn handed to the advisory provider.
 */
module SessionLog {

  /** One transcript record as the relay builds it. */
  datatype Entry = Entry(timestamp: string, speaker: nat, text: string, isFinal: bool)

  /** A trigger record. The relay declares a list of them and never fills it. */
  datatype TriggerEvent = TriggerEvent(trigger: string, timestamp: string)

  /** The value of `sessionData`: the trigger list and the final transcripts. */
  datatype SessionData = SessionData(triggers: seq<TriggerEvent>, transcripts: seq<Entry>)

  const Empty := SessionData([], [])

  const Newline := '\n'

  // ---------------------------------------------------------------------
  // Number formatting, as a template literal renders a non-negative integer

  function DigitChar(d: nat): (c: char)
    requires d < 10
    ensures '0' <= c <= '9'
  {
    "0123456789"[d]
  }

  /** Decimal digits of `n`, most significant first, no leading zero. */
  function NatToString(n: nat): (s: string)
    ensures |s| > 0
    ensures forall i :: 0 <= i < |s| ==> '0' <= s[i] <= '9'
    ensures |s| > 1 ==> s[0] != '0'
  {
    if n < 10 then [DigitChar(n)] else NatToString(n / 10) + [DigitChar(n % 10)]
  }

  /** The number a string of decimal digits denotes. */
  function DigitsValue(s: string): nat
    requires forall i :: 0 <= i < |s| ==> '0' <= s[i] <= '9'
  {
    if s == [] then 0 else DigitsValue(s[..|s| - 1]) * 10 + (s[|s| - 1] - '0') as nat
  }

  /** Reading the rendered speaker back gives the speaker number. */
  lemma {:induction false} NatToStringRoundTrip(n: nat)
    ensures DigitsValue(NatToString(n)) == n
  {
    if n >= 10 {
      NatToStringRoundTrip(n / 10);
      var s := NatToString(n);
      assert s[..|s| - 1] == NatToString(n / 10);
    }
  }

  // ---------------------------------------------------------------------
  // Joining lines with '\n' and splitting them again

  /** `parts.join('\n')`: the empty list gives the empty string. */
  function Join(parts: seq<string>): (s: string)
    ensures |parts| == 0 ==> s == ""
    ensures |parts| > 0 ==> |parts[0]| <= |s| && s[..|parts[0]|] == parts[0]
    ensures |parts| > 1 ==> |parts[0]| < |s| && s[|parts[0]|] == Newline
  {
    if |parts| == 0 then ""
    else if |parts| == 1 then parts[0]
    else parts[0] + [Newline] + Join(parts[1..])
  }

  /** `s.split('\n')`: the pieces between newlines, at least one. This is the
      reference reading of a compiled context, one string per line. */
  function Split(s: string): (parts: seq<string>)
    ensures |parts| >= 1
  {
    if s == [] then [""]
    else
      var rest := Split(s[1..]);
      if s[0] == Newline then [""] + rest
      else [[s[0]] + rest[0]] + rest[1..]
  }

  predicate NoNewline(s: string) {
    Newline !in s
  }

  lemma {:induction false} SplitSingle(a: string)
    requires NoNewline(a)
    ensures Split(a) == [a]
  {
    if a != [] {
      SplitSingle(a[1..]);
      assert [a[0]] + a[1..] == a;
    }
  }

  lemma {:induction false} SplitAtFirstNewline(a: string, b: string)
    requires NoNewline(a)
    ensures Split(a + [Newline] + b) == [a] + Split(b)
  {
    if a == [] {
      assert a + [Newline] + b == [Newline] + b;
      assert ([Newline] + b)[1..] == b;
    } else {
      var s := a + [Newline] + b;
      assert s[1..] == a[1..] + [Newline] + b;
      SplitAtFirstNewline(a[1..], b);
      assert [a[0]] + a[1..] == a;
    }
  }

  /** Joining newline-free lines and splitting the result gives the lines back. */
  lemma {:induction false} SplitJoin(parts: seq<string>)
    requires |parts| > 0
    requires forall i :: 0 <= i < |parts| ==> NoNewline(parts[i])
    ensures Split(Join(parts)) == parts
  {
    if |parts| == 1 {
      SplitSingle(parts[0]);
    } else {
      SplitJoin(parts[1..]);
      SplitAtFirstNewline(parts[0], Join(parts[1..]));
      assert [parts[0]] + parts[1..] == parts;
    }
  }

  /** Joining one more part appends a newline and that part. */
  lemma {:induction false} JoinSnoc(parts: seq<string>, p: string)
    requires |parts| > 0
    ensures Join(parts + [p]) == Join(parts) + [Newline] + p
  {
    if |parts| > 1 {
      assert (parts + [p])[1..] == parts[1..] + [p];
      JoinSnoc(parts[1..], p);
    }
  }

  // ---------------------------------------------------------------------
  // The conversation context and the user turn (server.js:184-188, 66)

  /** `[timestamp] Speaker s: text` for one stored transcript. */
  function Line(e: Entry): (ln: string)
    ensures var head := "[" + e.timestamp + "] Speaker ";
      && |ln| == |head| + |NatToString(e.speaker)| + 2 + |e.text|
      && ln[..|head|] == head
      && ln[|head|..|head| + |NatToString(e.speaker)|] == NatToString(e.speaker)
      && ln[|ln| - |e.text| - 2..] == ": " + e.text
  {
    "[" + e.timestamp + "] Speaker " + NatToString(e.speaker) + ": " + e.text
  }

  function Lines(log: seq<Entry>): (ls: seq<string>)
    ensures |ls| == |log|
    ensures forall i :: 0 <= i < |log| ==> ls[i] == Line(log[i])
  {
    seq(|log|, i requires 0 <= i < |log| => Line(log[i]))
  }

  /** The context string compiled from the stored transcripts. */
  function CompileContext(log: seq<Entry>): (ctx: string)
    ensures log == [] ==> ctx == ""
    ensures |log| == 1 ==> ctx == Line(log[0])
  {
    Join(Lines(log))
  }

  /** A record whose timestamp and text hold no newline renders as one line. */
  predicate SingleLine(e: Entry) {
    NoNewline(e.timestamp) && NoNewline(e.text)
  }

  lemma LineIsSingle(e: Entry)
    requires SingleLine(e)
    ensures NoNewline(Line(e))
  {
  }

  /** The context has exactly one line per stored transcript, in log order:
      splitting it at newlines gives back the rendered records. */
  lemma ContextLines(log: seq<Entry>)
    requires log != []
    requires forall i :: 0 <= i < |log| ==> SingleLine(log[i])
    ensures Split(CompileContext(log)) == Lines(log)
  {
    var ls := Lines(log);
    forall i | 0 <= i < |ls| ensures NoNewline(ls[i]) {
      LineIsSingle(log[i]);
    }
    SplitJoin(ls);
  }

  /** Storing one more final adds one line at the end of the context and
      leaves the earlier text as it was. */
  lemma ContextAppend(log: seq<Entry>, e: Entry)
    ensures CompileContext(log + [e]) ==
      if log == [] then Line(e) else CompileContext(log) + [Newline] + Line(e)
  {
    if log != [] {
      assert Lines(log + [e]) == Lines(log) + [Line(e)];
      JoinSnoc(Lines(log), Line(e));
    }
  }

  const ConversationHeading := "\n\nConversation so far:\n"

  /** The label that names the trigger in the user turn. */
  function TriggerInfo(trigger: string): (info: string)
    ensures |info| == |trigger| + 21
    ensures info[..20] == "Trigger activated: \"" && info[20..|info| - 1] == trigger
    ensures info[|info| - 1] == '"'
  {
    "Trigger activated: \"" + trigger + "\""
  }

  /** The user turn handed to the advisory provider. It reads, in order: the
      trigger label, the heading, and the context, with nothing in between. */
  function UserTurn(trigger: string, context: string): (turn: string)
    ensures var k := |TriggerInfo(trigger)|;
      && |turn| == k + |ConversationHeading| + |context|
      && turn[..k] == TriggerInfo(trigger)
      && turn[k..k + |ConversationHeading|] == ConversationHeading
      && turn[k + |ConversationHeading|..] == context
  {
    TriggerInfo(trigger) + ConversationHeading + context
  }

  /** For one trigger, different contexts give different user turns. */
  lemma UserTurnDeterminesContext(trigger: string, c1: string, c2: string)
    requires UserTurn(trigger, c1) == UserTurn(trigger, c2)
    ensures c1 == c2
  {
  }

  /** With no stored transcript the provider sees only the label and heading. */
  lemma EmptyLogUserTurn()
    ensures UserTurn("absence", CompileContext([])) ==
      "Trigger activated: \"absence\"\n\nConversation so far:\n"
  {
  }
}
