/**
 * Whole turns driven through the component's handlers, as the record button
 * sequences them, with the backend's reply and the speech outcome given.
 */
module Scenarios {
  import opened Options
  import opened Transcript
  import opened Chat
  import opened Voices
  import opened Interview

  /** The body `{ "message": { "content": text } }`. */
  function ReplyBody(text: string): Json
  {
    JObject(map["message" := JObject(map["content" := JString(text)])])
  }

  /**
   * One successful turn: the recogniser hears "hola", the backend answers
   * "respuesta" and, with no voice offered, only the warning is issued and
   * the two turns are committed.
   */
  method SuccessfulTurn(persona: string) returns (transcript: seq<Turn>, recording: bool, report: StopReport)
    ensures transcript == [Turn(System, persona), Turn(User, "hola"), Turn(Assistant, "respuesta")]
    ensures !recording
    ensures report == Committed("respuesta", false)
  {
    var app := new InterviewApp(persona);
    app.Start(true);
    app.OnResult([["hola", "ola"]]);
    var sent;
    sent, report := app.Stop(Response(200, Parsed(ReplyBody("respuesta"))), true);
    transcript, recording := app.messages, app.isRecording;
  }

  /**
   * A turn whose backend answers with status 500: the error is raised, the
   * transcript is unchanged, and a result arriving after the stop does not
   * reach the buffer.
   */
  method FailedTurnThenLateResult(persona: string) returns (transcript: seq<Turn>, buffer: string, report: StopReport)
    ensures transcript == [Turn(System, persona)]
    ensures buffer == "hola"
    ensures report == ChatFailed(ServerError(500))
  {
    var app := new InterviewApp(persona);
    app.Start(true);
    app.OnResult([["hola"]]);
    var sent;
    sent, report := app.Stop(Response(500, Unparsable), true);
    app.OnResult([["tarde"]]);
    transcript, buffer := app.messages, app.buffer;
  }

  /**
   * A reply that is well-formed but whose speech rejects commits nothing,
   * even though a voice was found.
   */
  method RejectedSpeech(persona: string) returns (transcript: seq<Turn>, report: StopReport)
    ensures transcript == [Turn(System, persona)]
    ensures report == SpeechFailed
  {
    var app := new InterviewApp(persona);
    app.InitSpeech(true, [Voice("Paulina", "es-MX"), Voice("Alex", "en-US")]);
    app.Start(true);
    app.OnResult([["hola"]]);
    var sent;
    sent, report := app.Stop(Response(200, Parsed(ReplyBody("respuesta"))), false);
    transcript := app.messages;
  }

  /**
   * The buffer is not cleared by starting or stopping: a turn in which
   * nothing is recognised sends the previous turn's text again, and a turn
   * before anything was recognised sends an empty user turn.
   */
  method SilentTurns(persona: string) returns (empty: seq<Turn>, first: seq<Turn>, second: seq<Turn>)
    ensures empty == [Turn(System, persona), Turn(User, "")]
    ensures first == second == [Turn(System, persona), Turn(User, "hola")]
  {
    var app := new InterviewApp(persona);
    var report;
    app.Start(true);
    empty, report := app.Stop(NetworkFailure, true);
    app.Start(true);
    app.OnResult([["hola"]]);
    first, report := app.Stop(NetworkFailure, true);
    app.Start(true);
    second, report := app.Stop(NetworkFailure, true);
  }
}
