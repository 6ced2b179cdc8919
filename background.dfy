/**
  The background script's view of playback: the `ttsState` record, the way
  each message the `onMessage` listener receives rewrites it, the first,
  synchronous part of `handleStopPlayback`, and the two synchronous
  stretches of `startTtsPlayback` around its word count. Everything the
  listener starts beyond that (opening and closing the offscreen document,
  reading storage, sending messages) is returned as an `Effect`.
 */
module Background {
  import opened Protocol
  import opened Text

  /** Every field of `ttsState` the listener reads or writes, as a value. */
  datatype TtsState = TtsState(
    isPlaying: bool,
    isProcessing: bool,
    processingMessage: string,
    currentChunk: nat,
    totalChunks: nat,
    lastSelectedText: string,
    lastError: string,
    serverConnected: bool,
    offscreenDocumentReady: bool,
    documentCreationInProgress: bool,
    closeDocumentOnStop: bool)

  /** Something the listener starts and does not wait for. */
  datatype Effect =
    | Broadcast(status: Status)      // `broadcastStatus`, to the popup
    | Send(message: Message)         // `sendMessageSafely`
    | SendText(text: string)         // `sendTextToOffscreen`, which reads the stored settings first
    | CloseDocument                  // `safeCloseDocument`
    | ResumeAfterStop(text: string)  // `startTtsPlayback` waiting in `handleStopPlayback`; resumed by `PrepareTts`
    | ResumeAfterClose(text: string) // `startTtsPlayback` waiting for the old document to close; resumed by `ConnectTts`
    | CheckServerConnection          // `checkServerConnection`, which answers later

  /** The texts the background script shows while it gets playback going. */
  const Initializing := "Initializing TTS engine..."
  const Preparing := "Preparing offscreen document..."
  const LargeText := "Processing large text (performance may be affected)..."
  const Connecting := "Connecting to TTS server..."
  const DefaultProcessing := "Processing..."
  const Unhandled := "Unhandled action"

  /** Above this many words `startTtsPlayback` warns about the text's size. */
  const LargeTextWords := 2000

  /** The processing message a `processingUpdate` leaves: its own text, or
      the default when that text is empty. */
  function ProcessingText(message: string): (r: string)
    ensures r != []
    ensures message != [] ==> r == message
  {
    if message != [] then message else DefaultProcessing
  }

  /** What `broadcastStatus` sends for a given state. */
  function StatusOf(s: TtsState): Status {
    Status(s.isPlaying, s.currentChunk, s.totalChunks, s.lastError, s.isProcessing, s.processingMessage)
  }

  /** The state after a message, what the listener starts, and its response. */
  datatype Outcome = Outcome(state: TtsState, effects: seq<Effect>, reply: Option<Reply>)

  /** Work in progress always comes with a description. */
  predicate Described(s: TtsState) {
    s.isProcessing ==> s.processingMessage != []
  }

  /** The listener: messages addressed to the background script report on
      the offscreen player; every other message comes from the popup or the
      page. */
  function Receive(s: TtsState, msg: Message): (r: Outcome)
    ensures Described(s) ==> Described(r.state)
    ensures msg.target == ToBackground ==> r.state.lastSelectedText == s.lastSelectedText
    ensures msg.target != ToBackground ==>
      r.state.currentChunk == s.currentChunk && r.state.totalChunks == s.totalChunks
  {
    if msg.target == ToBackground then ReceiveReport(s, msg.action) else ReceiveRequest(s, msg.action)
  }

  /** A report from the offscreen player. The playback fields are copied
      from `statusUpdate` and `keepAlive`; only `statusUpdate`, `error` and
      `processingUpdate` are passed on to the popup, with the new state. */
  function ReceiveReport(s: TtsState, action: Action): (r: Outcome)
    ensures Described(s) ==> Described(r.state)
    ensures (action.StatusUpdate? || action.KeepAlive?) ==>
      && r.state.isPlaying == action.isPlaying
      && r.state.currentChunk == action.currentChunk
      && r.state.totalChunks == action.totalChunks
    ensures action.StatusUpdate? && action.isPlaying ==> !r.state.isProcessing && r.state.processingMessage == []
    ensures action.Error? ==>
      r.state.lastError == action.message && !r.state.isProcessing && r.state.processingMessage == []
    ensures action.ProcessingUpdate? ==>
      && r.state.isProcessing
      && r.state.processingMessage == (if action.message == [] then DefaultProcessing else action.message)
    ensures action.KeepAlive? ==>
      && r.state.isProcessing == s.isProcessing
      && r.state.processingMessage == s.processingMessage
      && r.state.lastError == s.lastError
      && r.effects == []
    ensures action.OffscreenReady? ==> r.state.offscreenDocumentReady && !r.state.documentCreationInProgress
    ensures r.effects != [] && Last(r.effects).Broadcast? ==> Last(r.effects).status == StatusOf(r.state)
    ensures r.reply == Some(Ack(true)) <==>
      action.StatusUpdate? || action.Error? || action.ProcessingUpdate? || action.KeepAlive? || action.OffscreenReady?
    ensures r.reply.Some?
  {
    match action
    case StatusUpdate(playing, current, total) =>
      var t := s.(isPlaying := playing, currentChunk := current, totalChunks := total,
                  isProcessing := if playing then false else s.isProcessing,
                  processingMessage := if playing then "" else s.processingMessage);
      Outcome(t, (if !playing && t.closeDocumentOnStop then [CloseDocument] else []) + [Broadcast(StatusOf(t))],
        Some(Ack(true)))
    case Error(message) =>
      var t := s.(lastError := message, isProcessing := false, processingMessage := "");
      Outcome(t, [Broadcast(StatusOf(t))], Some(Ack(true)))
    case ProcessingUpdate(message) =>
      var t := s.(isProcessing := true, processingMessage := ProcessingText(message));
      Outcome(t, [Broadcast(StatusOf(t))], Some(Ack(true)))
    case KeepAlive(playing, current, total) =>
      Outcome(s.(isPlaying := playing, currentChunk := current, totalChunks := total), [], Some(Ack(true)))
    case OffscreenReady =>
      Outcome(s.(offscreenDocumentReady := true, documentCreationInProgress := false),
        if s.lastSelectedText != [] then [SendText(s.lastSelectedText)] else [], Some(Ack(true)))
    case _ =>
      Outcome(s, [], Some(Refused(Unhandled)))
  }

  /** A request from the popup or the page. Only `readText`,
      `updateSelectedText` and `stopPlayback` change the state; `checkServer`
      and `stopPlayback` answer later. */
  function ReceiveRequest(s: TtsState, action: Action): (r: Outcome)
    ensures Described(s) ==> Described(r.state)
    ensures r.state != s ==> action.ReadText? || action.UpdateSelectedText? || action.StopPlayback?
    ensures action.UpdateSelectedText? ==> r.state == s.(lastSelectedText := action.text)
    ensures action.ReadText? ==>
      && r.state.lastSelectedText == action.text
      && !r.state.isPlaying
      && r.reply == Some(Ack(true))
    ensures action.ReadText? && s.isPlaying ==>
      !r.state.isProcessing && Send(Message(ToOffscreen, StopPlayback)) in r.effects
    ensures action.ReadText? && !s.isPlaying ==>
      r.state.isProcessing && r.state.processingMessage != Initializing && CloseDocument in r.effects
    ensures action.StopPlayback? ==>
      && !r.state.isPlaying && !r.state.isProcessing
      && r.effects == [Send(Message(ToOffscreen, StopPlayback))]
    ensures action.GetStatus? ==> r.reply == Some(StatusReport(s.lastSelectedText, s.serverConnected, StatusOf(s)))
    ensures r.reply.None? <==> action.CheckServer? || action.StopPlayback?
  {
    match action
    case ReadText(text) => StartReading(s, text)
    case UpdateSelectedText(text) =>
      Outcome(s.(lastSelectedText := text), [], Some(Ack(true)))
    case GetLastSelectedText =>
      Outcome(s, [], Some(SelectedText(s.lastSelectedText)))
    case CheckServer =>
      Outcome(s, [CheckServerConnection], None)
    case GetStatus =>
      Outcome(s, [], Some(StatusReport(s.lastSelectedText, s.serverConnected, StatusOf(s))))
    case StopPlayback =>
      Outcome(s.(isPlaying := false, isProcessing := false), [Send(Message(ToOffscreen, StopPlayback))], None)
    case _ =>
      Outcome(s, [], Some(Refused(Unhandled)))
  }

  /** `readText`: take the text, broadcast the initializing notice, and run
      `startTtsPlayback` up to its first `await`. While playing, that is the
      synchronous part of `handleStopPlayback`, so playing and processing
      are off when the listener returns; otherwise it is `Prepare`. No other
      message can run before that point. */
  function StartReading(s: TtsState, text: string): (r: Outcome)
    ensures r.state.lastSelectedText == text
    ensures r.state.lastError == s.lastError
    ensures r.state.currentChunk == s.currentChunk && r.state.totalChunks == s.totalChunks
    ensures !r.state.isPlaying
    ensures r.reply == Some(Ack(true))
    ensures s.isPlaying ==>
      && !r.state.isProcessing
      && r.state.processingMessage == Initializing
      && r.effects == [Broadcast(StatusOf(s).(isProcessing := true, processingMessage := Initializing)),
                       Send(Message(ToOffscreen, StopPlayback)), ResumeAfterStop(text)]
    ensures !s.isPlaying ==>
      && r.state.isProcessing
      && r.state.processingMessage == (if CountWords(text) > LargeTextWords then LargeText else Preparing)
      && r.effects == [Broadcast(StatusOf(s).(isProcessing := true, processingMessage := Initializing)),
                       Broadcast(StatusOf(s).(isProcessing := true, processingMessage := Preparing))]
           + (if CountWords(text) > LargeTextWords then [Broadcast(StatusOf(r.state))] else [])
           + [CloseDocument, ResumeAfterClose(text)]
  {
    var t := s.(lastSelectedText := text, isProcessing := true, processingMessage := Initializing);
    if s.isPlaying then
      Outcome(t.(isPlaying := false, isProcessing := false),
        [Broadcast(StatusOf(t)), Send(Message(ToOffscreen, StopPlayback)), ResumeAfterStop(text)], Some(Ack(true)))
    else
      var p := Prepare(t, text, CountWords(text));
      Outcome(p.state, [Broadcast(StatusOf(t))] + p.effects, Some(Ack(true)))
  }

  /** `startTtsPlayback` once no playback is running, up to its wait for
      the old document to close, given the `wordCount` of the text: the
      preparing notice, the large-text warning above `LargeTextWords` words,
      the close, and the rest of `startTtsPlayback` left suspended. */
  function Prepare(s: TtsState, text: string, wordCount: nat): (r: Outcome)
    ensures r.state == s.(isProcessing := true,
      processingMessage := if wordCount > LargeTextWords then LargeText else Preparing)
    ensures r.effects == [Broadcast(StatusOf(s).(isProcessing := true, processingMessage := Preparing))]
      + (if wordCount > LargeTextWords then [Broadcast(StatusOf(r.state))] else [])
      + [CloseDocument, ResumeAfterClose(text)]
    ensures r.reply == None
  {
    var t := s.(isProcessing := true, processingMessage := Preparing);
    if wordCount > LargeTextWords then
      var u := t.(processingMessage := LargeText);
      Outcome(u, [Broadcast(StatusOf(t)), Broadcast(StatusOf(u)), CloseDocument, ResumeAfterClose(text)], None)
    else
      Outcome(t, [Broadcast(StatusOf(t)), CloseDocument, ResumeAfterClose(text)], None)
  }

  function Last<T>(s: seq<T>): T
    requires s != []
  {
    s[|s| - 1]
  }

  class Supervisor {
    var isPlaying: bool
    var isProcessing: bool
    var processingMessage: string
    var currentChunk: nat
    var totalChunks: nat
    var lastSelectedText: string
    var lastError: string
    var serverConnected: bool
    var offscreenDocumentReady: bool
    var documentCreationInProgress: bool
    var closeDocumentOnStop: bool

    /** Whenever the popup is told that work is in progress it is also told
        what that work is. */
    predicate Valid()
      reads this
    {
      Described(State())
    }

    function State(): TtsState
      reads this
    {
      TtsState(isPlaying, isProcessing, processingMessage, currentChunk, totalChunks,
        lastSelectedText, lastError, serverConnected, offscreenDocumentReady,
        documentCreationInProgress, closeDocumentOnStop)
    }

    /** What `broadcastStatus` sends. */
    function CurrentStatus(): Status
      reads this
    {
      StatusOf(State())
    }

    /** The initial `ttsState`. */
    constructor ()
      ensures Valid()
      ensures State() == TtsState(false, false, "", 0, 0, "", "", false, false, false, true)
    {
      isPlaying := false;
      isProcessing := false;
      processingMessage := "";
      currentChunk := 0;
      totalChunks := 0;
      lastSelectedText := "";
      lastError := "";
      serverConnected := false;
      offscreenDocumentReady := false;
      documentCreationInProgress := false;
      closeDocumentOnStop := true;
    }

    /** The `onMessage` listener, proved against `Receive`. */
    method OnMessage(msg: Message) returns (reply: Option<Reply>, effects: seq<Effect>)
      requires Valid()
      modifies this
      ensures Valid()
      ensures Outcome(State(), effects, reply) == Receive(old(State()), msg)
    {
      if msg.target == ToBackground {
        reply, effects := OnReport(msg.action);
      } else {
        reply, effects := OnRequest(msg.action);
      }
    }

    /** The `switch` for messages addressed to the background script. */
    method OnReport(action: Action) returns (reply: Option<Reply>, effects: seq<Effect>)
      requires Valid()
      modifies this
      ensures Valid()
      ensures Outcome(State(), effects, reply) == ReceiveReport(old(State()), action)
    {
      match action {
        case StatusUpdate(playing, current, total) =>
          effects := OnStatusUpdate(playing, current, total);
          reply := Some(Ack(true));
        case Error(message) =>
          effects := OnError(message);
          reply := Some(Ack(true));
        case ProcessingUpdate(message) =>
          effects := OnProcessingUpdate(message);
          reply := Some(Ack(true));
        case KeepAlive(playing, current, total) =>
          OnKeepAlive(playing, current, total);
          effects := [];
          reply := Some(Ack(true));
        case OffscreenReady =>
          effects := OnOffscreenReady();
          reply := Some(Ack(true));
        case _ =>
          effects := [];
          reply := Some(Refused(Unhandled));
      }
    }

    /** The `statusUpdate` case: take the player's position, end the
        processing notice once playing, close the document on a stop when
        configured to, and broadcast. */
    method OnStatusUpdate(playing: bool, current: nat, total: nat) returns (effects: seq<Effect>)
      requires Valid()
      modifies this
      ensures Valid()
      ensures Outcome(State(), effects, Some(Ack(true)))
        == ReceiveReport(old(State()), StatusUpdate(playing, current, total))
    {
      isPlaying := playing;
      currentChunk := current;
      totalChunks := total;
      if playing {
        isProcessing := false;
        processingMessage := "";
      }
      effects := if !playing && closeDocumentOnStop then [CloseDocument] else [];
      effects := effects + [Broadcast(CurrentStatus())];
    }

    /** The `error` case: record the error, end the processing notice and
        broadcast. */
    method OnError(message: string) returns (effects: seq<Effect>)
      requires Valid()
      modifies this
      ensures Valid()
      ensures Outcome(State(), effects, Some(Ack(true))) == ReceiveReport(old(State()), Error(message))
    {
      lastError := message;
      isProcessing := false;
      processingMessage := "";
      effects := [Broadcast(CurrentStatus())];
    }

    /** The `processingUpdate` case: show the processing notice and
        broadcast. */
    method OnProcessingUpdate(message: string) returns (effects: seq<Effect>)
      requires Valid()
      modifies this
      ensures Valid()
      ensures Outcome(State(), effects, Some(Ack(true)))
        == ReceiveReport(old(State()), ProcessingUpdate(message))
    {
      isProcessing := true;
      processingMessage := ProcessingText(message);
      effects := [Broadcast(CurrentStatus())];
    }

    /** The `keepAlive` case: take the player's position, silently. */
    method OnKeepAlive(playing: bool, current: nat, total: nat)
      requires Valid()
      modifies this
      ensures Valid()
      ensures Outcome(State(), [], Some(Ack(true)))
        == ReceiveReport(old(State()), KeepAlive(playing, current, total))
    {
      isPlaying := playing;
      currentChunk := current;
      totalChunks := total;
    }

    /** The `offscreenReady` case: the document is up; send it the last
        selected text, if any. */
    method OnOffscreenReady() returns (effects: seq<Effect>)
      requires Valid()
      modifies this
      ensures Valid()
      ensures Outcome(State(), effects, Some(Ack(true))) == ReceiveReport(old(State()), OffscreenReady)
    {
      offscreenDocumentReady := true;
      documentCreationInProgress := false;
      effects := if lastSelectedText != [] then [SendText(lastSelectedText)] else [];
    }

    /** The `switch` for every other message, from the popup or the page. */
    method OnRequest(action: Action) returns (reply: Option<Reply>, effects: seq<Effect>)
      requires Valid()
      modifies this
      ensures Valid()
      ensures Outcome(State(), effects, reply) == ReceiveRequest(old(State()), action)
    {
      match action {
        case ReadText(text) =>
          effects := OnReadText(text);
          reply := Some(Ack(true));
        case UpdateSelectedText(text) =>
          lastSelectedText := text;
          effects := [];
          reply := Some(Ack(true));
        case GetLastSelectedText =>
          effects := [];
          reply := Some(SelectedText(lastSelectedText));
        case CheckServer =>
          effects := [CheckServerConnection];
          reply := None;
        case GetStatus =>
          effects := [];
          reply := Some(StatusReport(lastSelectedText, serverConnected, CurrentStatus()));
        case StopPlayback =>
          effects := HandleStopPlayback();
          reply := None;
        case _ =>
          effects := [];
          reply := Some(Refused(Unhandled));
      }
    }

    /** The `readText` case: take the text, show the initializing notice,
        and run `startTtsPlayback` up to its first `await`, which stops a
        running playback or else prepares the new one. */
    method OnReadText(text: string) returns (effects: seq<Effect>)
      requires Valid()
      modifies this
      ensures Valid()
      ensures Outcome(State(), effects, Some(Ack(true))) == StartReading(old(State()), text)
    {
      lastSelectedText := text;
      isProcessing := true;
      processingMessage := Initializing;
      ghost var t := State();
      assert t == old(State()).(lastSelectedText := text, isProcessing := true, processingMessage := Initializing);
      effects := [Broadcast(CurrentStatus())];
      var rest: seq<Effect>;
      if isPlaying {
        rest := HandleStopPlayback();
        rest := rest + [ResumeAfterStop(text)];
        assert State() == t.(isPlaying := false, isProcessing := false);
      } else {
        rest := PrepareTts(text);
        assert Outcome(State(), rest, None) == Prepare(t, text, CountWords(text));
      }
      effects := effects + rest;
    }

    /** `handleStopPlayback` up to its first `await`: playback and processing
        are off before the offscreen player is even asked to stop. */
    method HandleStopPlayback() returns (effects: seq<Effect>)
      requires Valid()
      modifies this`isPlaying, this`isProcessing
      ensures Valid()
      ensures !isPlaying && !isProcessing
      ensures effects == [Send(Message(ToOffscreen, StopPlayback))]
    {
      isPlaying := false;
      isProcessing := false;
      effects := [Send(Message(ToOffscreen, StopPlayback))];
    }

    /** `startTtsPlayback` from the point where any running playback has been
        stopped up to its wait for the old document to close: announce the
        preparation, and warn once more when the text has more than
        `LargeTextWords` words. This is also how a `ResumeAfterStop`
        continues. */
    method PrepareTts(text: string) returns (effects: seq<Effect>)
      requires Valid()
      modifies this`isProcessing, this`processingMessage
      ensures Valid()
      ensures isProcessing
      ensures CountWords(text) > LargeTextWords ==>
        && processingMessage == LargeText
        && effects == [Broadcast(old(CurrentStatus()).(isProcessing := true, processingMessage := Preparing)),
                       Broadcast(CurrentStatus()), CloseDocument, ResumeAfterClose(text)]
      ensures CountWords(text) <= LargeTextWords ==>
        processingMessage == Preparing && effects == [Broadcast(CurrentStatus()), CloseDocument, ResumeAfterClose(text)]
      ensures Outcome(State(), effects, None) == Prepare(old(State()), text, CountWords(text))
    {
      isProcessing := true;
      processingMessage := Preparing;
      effects := [Broadcast(CurrentStatus())];
      var wordCount := CountWords(text);
      if wordCount > LargeTextWords {
        processingMessage := LargeText;
        effects := effects + [Broadcast(CurrentStatus())];
      }
      effects := effects + [CloseDocument, ResumeAfterClose(text)];
    }

    /** `startTtsPlayback` once the offscreen document exists, which is how a
        `ResumeAfterClose` continues: clear the last error, announce the
        connection and hand the text over. */
    method ConnectTts(text: string) returns (effects: seq<Effect>)
      requires Valid()
      modifies this`lastError, this`processingMessage
      ensures Valid()
      ensures lastError == [] && processingMessage == Connecting
      ensures effects == [Broadcast(CurrentStatus()), SendText(text)]
    {
      lastError := "";
      processingMessage := Connecting;
      effects := [Broadcast(CurrentStatus()), SendText(text)];
    }
  }
}
