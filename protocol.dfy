/**
  The runtime messages the background script and the offscreen player
  exchange, and the replies they send back.
 */
module Protocol {

  datatype Option<T> = None | Some(value: T)

  /** The `target` field of a message. */
  datatype Target = ToBackground | ToOffscreen | Untargeted

  /** The settings a `processText` message may carry; a present field
      overrides the player's own. */
  datatype SettingsPatch = SettingsPatch(
    apiUrl: Option<string>,
    apiKey: Option<string>,
    voice: Option<string>,
    chunkSize: Option<int>,
    maxCacheSize: Option<nat>)

  /** The `action` field of a message, with the fields that go with it. */
  datatype Action =
    | StatusUpdate(isPlaying: bool, currentChunk: nat, totalChunks: nat)
    | Error(message: string)
    | ProcessingUpdate(message: string)
    | KeepAlive(isPlaying: bool, currentChunk: nat, totalChunks: nat)
    | OffscreenReady
    | ReadText(text: string)
    | UpdateSelectedText(text: string)
    | GetLastSelectedText
    | CheckServer
    | GetStatus
    | StopPlayback
    | ProcessText(text: string, settings: Option<SettingsPatch>)
    | Heartbeat
    | Cleanup
    | Unknown(name: string)

  datatype Message = Message(target: Target, action: Action)

  /** What the popup is told, by a broadcast or in reply to `getStatus`. */
  datatype Status = Status(
    isPlaying: bool,
    currentChunk: nat,
    totalChunks: nat,
    lastError: string,
    isProcessing: bool,
    processingMessage: string)

  /** The first response a handler sends. */
  datatype Reply =
    | Ack(success: bool)
    | Refused(error: string)
    | SelectedText(text: string)
    | StatusReport(lastSelectedText: string, serverConnected: bool, status: Status)
    | Alive(isPlaying: bool, currentChunk: nat, totalChunks: nat)

  function DigitChar(d: nat): char
    requires d < 10
  {
    "0123456789"[d]
  }

  /** A non-negative number written in decimal, as a template literal does. */
  function NatToString(n: nat): string
    decreases n
  {
    if n < 10 then [DigitChar(n)] else NatToString(n / 10) + [DigitChar(n % 10)]
  }
}
