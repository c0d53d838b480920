/**
 * The interview turn controller of the `App` component: a recording flag, a
 * live capture buffer, the committed chat transcript, the result listeners
 * attached to the recogniser with the abort signal that revokes them, and the
 * offered and selected synthesis voices.
 */
module Interview {
  import opened Options
  import opened Transcript
  import opened Recognition
  import opened Voices
  import opened Chat

  /** How a stop handler ended. */
  datatype StopReport =
    | Committed(content: string, spoken: bool) // the transcript was published; spoken is false after the voice warning
    | ChatFailed(error: ChatError)             // the exchange threw; nothing committed
    | SpeechFailed                             // speaking the reply rejected; nothing committed

  /**
   * The path the stop handler takes after the transcript has been sent, from
   * the exchange, the voice the selection resolves to and whether speaking it
   * resolved.
   */
  function Settle(x: HttpExchange, voice: Option<Voice>, speakOk: bool): (r: StopReport)
    ensures r.Committed? <==>
              x.Response? && OkStatus(x.status) && x.body.Parsed? && WellFormedReply(x.body.value) &&
              (voice.Some? ==> speakOk)
    ensures r.Committed? ==> r.content == ReplyText(x.body.value) && r.spoken == voice.Some?
    ensures r.SpeechFailed? <==> ChatReply(x).Success? && voice.Some? && !speakOk
  {
    match ChatReply(x)
    case Failure(e) => ChatFailed(e)
    case Success(content) =>
      if voice.Some? && !speakOk then SpeechFailed else Committed(content, voice.Some?)
  }

  /** The transcript published by a stop that ended with `report`. */
  function Publish(messages: seq<Turn>, buffer: string, report: StopReport): (r: seq<Turn>)
    ensures report.Committed? ==> r == Exchange(messages, buffer, report.content)
    ensures !report.Committed? ==> r == messages
  {
    if report.Committed? then messages + [Turn(User, buffer), Turn(Assistant, report.content)]
    else messages
  }

  /** One finished turn of a session: what the buffer held at stop and how the stop ended. */
  datatype TurnRecord = TurnRecord(buffer: string, report: StopReport)

  /** The transcript after a session's turns, one stop after another. */
  function Replay(messages: seq<Turn>, turns: seq<TurnRecord>): seq<Turn>
    decreases |turns|
  {
    if |turns| == 0 then messages
    else Replay(Publish(messages, turns[0].buffer, turns[0].report), turns[1..])
  }

  /** How many of the turns committed. */
  function Commits(turns: seq<TurnRecord>): nat
  {
    if |turns| == 0 then 0
    else (if turns[0].report.Committed? then 1 else 0) + Commits(turns[1..])
  }

  /**
   * Over a whole session the transcript only grows at its end, by exactly two
   * turns per committed stop, and keeps its conversation shape and its
   * system turn.
   */
  lemma {:induction false} ReplayAppendOnly(messages: seq<Turn>, turns: seq<TurnRecord>)
    requires Conversation(messages)
    decreases |turns|
    ensures var r := Replay(messages, turns);
            |r| == |messages| + 2 * Commits(turns) &&
            r[..|messages|] == messages &&
            Conversation(r) && r[0] == messages[0]
  {
    if |turns| > 0 {
      var next := Publish(messages, turns[0].buffer, turns[0].report);
      if turns[0].report.Committed? {
        ExchangeKeepsConversation(messages, turns[0].buffer, turns[0].report.content);
      }
      ReplayAppendOnly(next, turns[1..]);
      var r := Replay(next, turns[1..]);
      assert r[..|messages|] == r[..|next|][..|messages|];
    }
  }

  /** `signals` without the listeners registered with `signal`: what aborting that signal leaves. */
  function Detach(signals: seq<nat>, signal: nat): (r: seq<nat>)
    ensures forall g :: g in r <==> g in signals && g != signal
    ensures (forall g :: g in signals ==> g == signal) ==> r == []
  {
    if |signals| == 0 then []
    else if signals[0] == signal then Detach(signals[1..], signal)
    else assert signals[0] in signals; [signals[0]] + Detach(signals[1..], signal)
  }

  class InterviewApp {
    var initialized: bool
    var voices: seq<Voice>
    var selectedVoice: Option<string>
    var isRecording: bool
    var buffer: string
    var messages: seq<Turn>
    /** Identifies `recordController.current`; a fresh controller gets a fresh number. */
    var signal: nat
    /** The signal each result listener still attached to the recogniser was registered with. */
    var listeners: seq<nat>

    /** A result event reaches the buffer only while some listener is attached. */
    predicate ListenerLive()
      reads this
    {
      |listeners| > 0
    }

    ghost predicate Valid()
      reads this
    {
      Conversation(messages) &&
      (forall g :: g in listeners ==> g == signal) &&
      (ListenerLive() ==> isRecording)
    }

    constructor (systemPrompt: string)
      ensures Valid()
      ensures messages == Initial(systemPrompt)
      ensures !isRecording && buffer == "" && !ListenerLive()
      ensures !initialized && voices == [] && selectedVoice == None
    {
      initialized := false;
      voices := [];
      selectedVoice := None;
      isRecording := false;
      buffer := "";
      messages := Initial(systemPrompt);
      signal := 0;
      listeners := [];
    }

    /**
     * Speech initialisation: when the library initialises, offer the Spanish
     * voices and select the first; when it fails, nothing changes.
     */
    method InitSpeech(initOk: bool, available: seq<Voice>)
      requires Valid()
      modifies this`initialized, this`voices, this`selectedVoice
      ensures Valid()
      ensures initOk ==> initialized && voices == SpanishVoices(available) &&
                         selectedVoice == DefaultSelection(voices, old(selectedVoice))
      ensures !initOk ==> initialized == old(initialized) && voices == old(voices) &&
                          selectedVoice == old(selectedVoice)
    {
      if initOk {
        initialized := true;
        var filtered := SpanishVoices(available);
        voices := filtered;
        if |filtered| > 0 {
          selectedVoice := Some(filtered[0].name);
        }
      }
    }

    /** The voice picker's change handler. */
    method SelectVoice(name: string)
      requires Valid()
      modifies this`selectedVoice
      ensures Valid() && selectedVoice == Some(name)
    {
      selectedVoice := Some(name);
    }

    /**
     * Start recording: the flag goes on and, when the recogniser starts, a
     * result listener is attached under the current signal. The buffer is
     * not cleared.
     */
    method Start(captureStarted: bool)
      requires Valid() && !isRecording
      modifies this`isRecording, this`listeners
      ensures Valid() && isRecording
      ensures listeners == old(listeners) + (if captureStarted then [signal] else [])
      ensures ListenerLive() <==> captureStarted
    {
      isRecording := true;
      if captureStarted {
        listeners := listeners + [signal];
      }
    }

    /** A result event from the recogniser, delivered to the attached listeners. */
    method OnResult(results: seq<SpeechResult>)
      requires Valid()
      modifies this`buffer
      ensures Valid()
      ensures buffer == if old(ListenerLive()) && ListenedBuffer(results).Some?
                        then ListenedBuffer(results).value else old(buffer)
      ensures !isRecording ==> buffer == old(buffer)
    {
      if ListenerLive() {
        var computed := ListenedBuffer(results);
        if computed.Some? {
          buffer := computed.value;
        }
      }
    }

    /**
     * Stop recording: the flag goes off, the listeners are revoked by aborting
     * the signal and a fresh one is installed, the committed transcript plus
     * the buffer as a user turn is sent, and the transcript with the reply
     * appended is committed only when the whole exchange and the speech succeed.
     */
    method Stop(x: HttpExchange, speakOk: bool) returns (sent: seq<Turn>, report: StopReport)
      requires Valid() && isRecording
      modifies this`isRecording, this`listeners, this`signal, this`messages
      ensures Valid() && !isRecording && !ListenerLive()
      ensures signal != old(signal)
      ensures buffer == old(buffer)
      ensures sent == old(messages) + [Turn(User, old(buffer))]
      ensures report == Settle(x, FindVoice(voices, selectedVoice), speakOk)
      ensures messages == Publish(old(messages), old(buffer), report)
    {
      isRecording := false;
      listeners := Detach(listeners, signal);
      signal := signal + 1;

      var draft := messages + [Turn(User, buffer)];
      sent := draft;
      var reply := ChatReply(x);
      if reply.Failure? {
        report := ChatFailed(reply.error);
        return;
      }
      draft := draft + [Turn(Assistant, reply.value)];
      var voice := FindVoice(voices, selectedVoice);
      if voice.Some? && !speakOk {
        report := SpeechFailed;
        return;
      }
      report := Committed(reply.value, voice.Some?);
      ExchangeKeepsConversation(messages, buffer, reply.value);
      messages := draft;
    }
  }
}
