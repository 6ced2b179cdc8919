# Right-Click TTS Reader: playback pipeline in Dafny

This project models the core of a browser extension that reads selected
text aloud. It models two scripts.

**The offscreen player** (`offscreen.js`) has three parts:
- It cuts the text into chunks (`splitTextIntoChunks`).
- It asks a speech service for the audio of each chunk.
- It keeps the audio in a small LRU cache (`cacheAudioBuffer`, `updateCacheOrder`).

It plays the chunks one after the other and preloads the chunks ahead. Its
state (`playerState`) is the class `Offscreen.Player`.

The player's asynchronous steps are split at their first `await`. The part
before the `await` is one method, which returns the continuations it leaves
pending as `Task`s:
- a request to the speech service;
- a decode;
- a playing source;
- a preload;
- the retry timer.

What runs after the awaited result arrives is another method. The
environment calls it with that result: `OnFetchResult`, `OnPreloadResult`,
`OnDecodeResult` or `OnEnded`.

Messages the player sends to the background script are collected in
`outbox`. A ghost field `recency` records every chunk index used since the
last cleanup, most recently used first. The cache invariant ties
`audioCacheOrder` to `recency`: the order list is always the front of that
recency list. For the lists themselves, `Lru.StoreKeepsMostRecent` and
`Lru.HitKeepsMostRecent` show that a store or a hit on a list holding the
`maxCacheSize || 10` most recently used entries leaves the `maxCacheSize ||
10` most recently used entries of the longer log. The player's invariant
itself states only that the order list is a front part of the recency
list; it does not state that the two agree up to the limit.

**The background script** (`background.js`) listens for runtime messages
and rewrites its `ttsState` record. That record is the class
`Background.Supervisor`, and each `onMessage` handler is proved against a
function (`Receive`, `ReceiveReport`, `ReceiveRequest`). Everything the
listener starts without waiting for it becomes an `Effect` value:
broadcasts, messages sent, document closing, server checks, and the
rest of `startTtsPlayback` left waiting.

The modules are:
- `Text`: JavaScript's `\s`, `trim`, `split(/\s+/)` and `countWords`.
- `Chunker`: the sentence regular expression, as a scanner, and the chunking loop.
- `Lru`: the recency list and its facts.
- `Protocol`: the messages.
- `Offscreen`: the player.
- `Background`: the listener.

### Behaviour worth knowing

- **Chunks can be longer than `chunkSize`.** They are cut at word boundaries
  only once they exceed one and a half times `chunkSize`, and the test for
  starting a new chunk leaves out the space that would join the sentence
  to the chunk. So a chunk can reach 1.5 × `chunkSize`, and a single
  over-long word is never cut. `Chunker.ChunksAreGood` proves this bound.
- **A text no longer than `chunkSize` can give several chunks.** The chunk
  under construction holds the spaces of earlier joins, and they count in
  that test. `Chunker.ShortTextTwoChunks` shows it: with `chunkSize` 6, the
  six-character text `x.y.z.` gives `x. y.` (5 characters) and `z.`,
  because 5 + 2 > 6.
- **A cache size of 0 means 10.** The limit is `maxCacheSize || 10`.
- **Stale audio is recognised by its index only.** Fetched and decoded
  audio is played only if playback is on and the chunk is still the current
  one, so audio from an earlier playback that reached the same index passes.
- **Some handlers do not check whether the chunk is still current:**
  - the `ended` handler checks only `isPlaying`, not whether the chunk is
    still the current one;
  - a fetch failure or a decode failure goes on with the next chunk without
    any check;
  - a preload runs whether or not playback is on.
- **The cache survives stops.** It is kept by `stopPlayback` and by
  `processText`, and `performCleanup` empties it.
- **Several preloads can be in flight.** The preload marker holds one
  index and only stops a second preload of that same index.
- **New text while playing does not restart playback.** `processText` with
  text replaces the chunks and sets the current chunk to 0, but
  `startPlayback` returns at once because playback is on, so no chunk is
  processed. Playback moves on only when the old source ends: the `ended`
  handler of old chunk `i` processes chunk `i + 1` of the new list, or stops
  playback when `i` is at or past the new last chunk. A request still in
  flight for old chunk 0 caches its audio under index 0 and plays it as
  the new chunk 0.
- **Reading new text stops the old playback first.** When `readText`
  arrives while playing, the background script marks playback and
  processing off and asks the player to stop before it answers. Only then,
  after its waits, does it prepare the new document.

## Model

| member | source | states |
|---|---|---|
| Text.Trim | offscreen.js:256 | The result has no whitespace at either end and is no longer than the input. It keeps every non-whitespace character, in order. It is empty exactly when the input is all whitespace. |
| Text.TrimOfTrimmed | offscreen.js:292-293 | Trimming a string that has no whitespace at either end gives the string back. |
| Text.TrimSplit | offscreen.js:256 | The input is whitespace, then the trimmed string, then whitespace, in that order. |
| Text.TrimStripsEnds | offscreen.js:256 | The trimmed string is a slice of the input with only whitespace before it and only whitespace after it, so whitespace inside the text is kept. |
| Text.Split | offscreen.js:271 | `split(/\s+/)` gives at least one field, and no field holds whitespace. Only the first and the last field may be empty. The first (last) field is empty exactly when the string starts (ends) with whitespace. The empty string gives one empty field. |
| Text.SplitKeepsText | offscreen.js:271 | The fields, written one after the other, hold exactly the non-whitespace characters of the string, in order. |
| Text.Words | offscreen.js:245 | Every word is non-empty and holds no whitespace. |
| Text.SplitFieldsAreWords | offscreen.js:245 | Splitting on whitespace and dropping the empty fields gives exactly the words of the string. |
| Text.WordsOfTrim | offscreen.js:245 | Trimming does not change the words of a string. |
| Text.WordsAppend | offscreen.js:245 | When whitespace separates two strings, the words of their concatenation are the words of the first followed by the words of the second. |
| Text.WordsEmpty | offscreen.js:244-245 | A string has no words exactly when it is all whitespace. |
| Text.NonSpaceAppend | offscreen.js:256 | The non-whitespace characters of a concatenation are those of the parts, in order. |
| Text.CountWords | offscreen.js:243-246 | `countWords` returns the number of words of the text. The result is 0 exactly when the text is empty or all whitespace. The same function is at background.js:623-626. |
| Chunker.BodyLen | offscreen.js:250 | The regular expression's body `[^.!?]+` is the longest run of non-terminators, and a terminator follows it unless the text ends. |
| Chunker.MarkLen | offscreen.js:250 | The terminator run `[.!?]+` is the longest run of `.`, `!` and `?`. |
| Chunker.Sentences | offscreen.js:250 | No match of the sentence regular expression is empty. |
| Chunker.SentencesAreUnits | offscreen.js:250 | Every match is a non-empty body of non-terminators followed only by terminators. Only the last match may have no terminators (the trailing-fragment alternative). |
| Chunker.SentencesCover | offscreen.js:250 | The matches, written one after the other, are the text without its leading terminators. Nothing else is lost or reordered. |
| Chunker.LeadingUnit | offscreen.js:250 | One character followed by one terminator is a match of its own when a non-terminator or nothing follows. |
| Chunker.PlaceGood | offscreen.js:261-266 | Adding a trimmed sentence keeps every emitted chunk good. The chunk under construction is then non-empty and trimmed. |
| Chunker.PlaceContent | offscreen.js:261-266 | Adding a sentence, whether to a new chunk or after one space, keeps the text in order: the visible characters held so far grow by exactly the sentence's. |
| Chunker.WordLoopPieces | offscreen.js:274-281 | The word loop keeps the chunks emitted before it. Every piece it flushes is non-empty and trimmed, and at most `chunkSize` long unless it is a single word. |
| Chunker.WordLoopContent | offscreen.js:274-281 | The word loop keeps every visible character, in order. |
| Chunker.FillWords | offscreen.js:271-281 | The word loop, written as a loop over the words, computes the word-loop function `WordLoop`. |
| Chunker.BreakAtWords | offscreen.js:269-288 | The word-boundary fallback computes `Rebreak`: the word loop, then a leftover of whitespace only is dropped. |
| Chunker.RebreakPieces | offscreen.js:269-288 | The fallback flushes only good pieces. What it leaves in `currentChunk` starts with a non-space and is within bounds. |
| Chunker.RebreakContent | offscreen.js:269-288 | The fallback keeps every visible character of the chunks and the current chunk, in order. |
| Chunker.SentenceStepGood | offscreen.js:255-288 | One pass of the sentence loop keeps every emitted chunk good and the current chunk well-formed. |
| Chunker.SentenceStepContent | offscreen.js:255-288 | One pass of the sentence loop adds exactly the visible characters of the sentence, after those held before. |
| Chunker.SentenceLoopGood | offscreen.js:254-289 | After the sentence loop every emitted chunk is good and the current chunk is well-formed. |
| Chunker.SentenceLoopContent | offscreen.js:254-289 | After the sentence loop the state holds exactly the visible characters of all the matches, in order. |
| Chunker.SplitTextIntoChunks | offscreen.js:249-297 | The loop returns `Chunks(text, chunkSize)`, the function that the three lemmas below are about. |
| Chunker.ChunksAreGood | offscreen.js:249-297 | Every chunk is non-empty and trimmed. It is at most 1.5 × `chunkSize` long unless it is a single word. |
| Chunker.ChunksKeepText | offscreen.js:249-297 | The chunks, written one after the other, hold exactly the non-whitespace characters of the text after its leading terminators. They keep the order, drop nothing and duplicate nothing. |
| Chunker.ChunksEmpty | offscreen.js:249-297 | There are no chunks exactly when the text is all whitespace once its leading terminators are removed. |
| Chunker.GoodChunksVisible | offscreen.js:292-294 | A list of good chunks is empty exactly when it holds no visible character. |
| Chunker.ShortTextTwoChunks | offscreen.js:261-266 | The six-character text of three one-letter sentences gives the two chunks `x. y.` and `z.` with `chunkSize` 6. The space inserted by the first join counts toward the size test for the third sentence. |
| Lru.IndexOf | offscreen.js:443 | `indexOf` gives -1 exactly when the entry is absent. Otherwise it gives the first position of the entry. |
| Lru.Without | offscreen.js:444-446 | The entry is gone, every other entry is kept, and nothing is added. |
| Lru.SpliceIsWithout | offscreen.js:443-446 | In a list without duplicates, `splice(indexOf(x), 1)` removes `x` and keeps the other entries in their order. |
| Lru.WithoutDistinct | offscreen.js:444-446 | Removing an entry from a list without duplicates leaves no duplicates and shortens the list by one when the entry was present. |
| Lru.TouchFacts | offscreen.js:441-450 | After `updateCacheOrder(x)`, `x` is first and appears once. The other entries keep their relative order, and the list grows only when `x` was new. |
| Lru.Limit | offscreen.js:428 | The limit `maxCacheSize`-or-10 is at least 1. It is `maxCacheSize` when that is non-zero, and 10 otherwise. |
| Lru.CutBack | offscreen.js:430-437 | Popping from the back down to `limit` entries leaves the front `limit` entries, without duplicates. The removed entries are exactly the back ones. |
| Lru.StoreFacts | offscreen.js:420-438 | After a store the order list has no duplicates and at most `limit` entries. The cache keys equal the listed entries, and the evicted entries are the back of the list. The stored index maps to the new buffer, every other kept entry is unchanged, and nothing is evicted while the list fits. |
| Lru.RecencyOrderFacts | offscreen.js:441-450 | The recency order of an access log has no duplicates and holds exactly the logged entries. |
| Lru.TouchTake | offscreen.js:420-450 | Cutting the list to `limit` before a touch and after it gives the same front `limit` entries. |
| Lru.StoreKeepsMostRecent | offscreen.js:420-438 | A store on a cache holding the `limit` most recently used entries leaves the `limit` most recently used entries of the longer access log. |
| Lru.HitKeepsMostRecent | offscreen.js:342-346 | A cache hit on such a cache needs no eviction and leaves the `limit` most recently used entries. |
| Lru.CapacityTwoScenario | offscreen.js:420-450 | With capacity 2, storing 0, 1 and 2 keeps {1, 2}. A hit on 1 followed by a store of 3 keeps {1, 3}. |
| Offscreen.FetchError | offscreen.js:377-385 | A response is usable exactly when its status is ok and its body is non-empty. An ok response with an empty body is the empty-audio error. |
| Offscreen.NoteText | offscreen.js:351 | Every progress note has non-empty text, so the background script shows it rather than its default. |
| Offscreen.Render | offscreen.js:640-660 | Every outgoing message goes to the background script. A status report becomes `statusUpdate` with the same three fields. A progress note becomes `processingUpdate` with a non-empty message. A failure becomes `error`. |
| Offscreen.HitKeepsInvariant | offscreen.js:342-346 | A cache hit keeps the cache invariant: no duplicates, keys equal to the listed entries, no empty buffer, and the order list a prefix of the recency list. |
| Offscreen.StoreKeepsInvariant | offscreen.js:420-438 | Storing a non-empty buffer and evicting keeps the cache invariant. |
| Offscreen.Player.constructor | offscreen.js:2-23 | The initial `playerState`: no text, no chunks, not playing, empty cache, preload marker -1, default settings. |
| Offscreen.Player.UpdateCacheOrder | offscreen.js:441-450 | The order list becomes `Touch(old, index)`: the index at the front, the rest in their order. |
| Offscreen.Player.EvictOldest | offscreen.js:430-437 | The loop leaves the front `maxSize` entries and deletes exactly the popped entries from the cache. |
| Offscreen.Player.CacheAudioBuffer | offscreen.js:420-438 | The new order is the touched list cut to `maxCacheSize`, or 10 when that is 0. The cache gains the buffer and loses exactly the evicted entries. The cache invariant is kept. |
| Offscreen.Player.PlayAudioBuffer | offscreen.js:453-462 | Playing a buffer starts its decode. |
| Offscreen.Player.ProcessChunk | offscreen.js:330-375 | Nothing changes when the index is past the last chunk or playback is off. Otherwise the index becomes the current chunk and the status is reported. A cached chunk is moved to most recently used and decoded without a request. An uncached chunk is announced and requested. |
| Offscreen.Player.PlayAudioFromCache | offscreen.js:542-552 | A cached buffer is decoded and nothing else changes. A missing entry goes back to `processChunk`. |
| Offscreen.Player.OnFetchResult | offscreen.js:377-416 | Usable audio is cached whether or not it is still wanted. It is decoded only if playback is on and the index is still current. A failure reports the error, then either retries the next chunk or, after the last chunk, stops playback and reports the status. It never turns playback on. |
| Offscreen.Player.PreloadNextChunk | offscreen.js:555-588 | A request starts only for an index that is in range, uncached and not already being preloaded. That index is marked as preloading. |
| Offscreen.Player.OnPreloadResult | offscreen.js:590-611 | Usable audio is cached. In every case the preload marker is cleared. |
| Offscreen.Player.OnDecoded | offscreen.js:464-515 | Decoded audio is dropped if playback is off or the index is no longer current. Otherwise the source starts, the next chunk is preloaded when eligible, and the status is reported. |
| Offscreen.Player.OnDecodeFailed | offscreen.js:516-528 | A decode failure reports the error. It goes on with the next chunk, or after the last chunk it stops playback and reports the status. |
| Offscreen.Player.OnDecodeResult | offscreen.js:462-528 | Both outcomes of decoding, as above. Playback is never turned on, and a new source is always the current chunk's. |
| Offscreen.Player.Advance | offscreen.js:485-495 | The next chunk is announced. The chunk after it is preloaded when eligible, and the next chunk becomes the current one. |
| Offscreen.Player.OnEnded | offscreen.js:481-504 | While playing, and when the chunk is not the last, playback moves to the next chunk. After the last chunk, playback and the source are cleared and the status is reported. Otherwise nothing changes. |
| Offscreen.Player.Resplit | offscreen.js:223-225 | The chunks become `Chunks(text, chunkSize)` and the current chunk becomes 0. |
| Offscreen.Player.ReportChunks | offscreen.js:227-236 | A failure is reported when no chunk came out, and the chunk count otherwise. |
| Offscreen.Player.ProcessText | offscreen.js:213-240 | Empty text reports `No text provided` and changes nothing else. Other text is split into `Chunks(text, chunkSize)`, the current chunk becomes 0, and the splitting note and then the chunk count, or `Failed to process text into chunks`, are sent in that order. |
| Offscreen.Player.Begin | offscreen.js:311-326 | Playback turns on at the current chunk, which is processed: the cache order is touched at that chunk on a hit and left alone otherwise. The messages are the first-chunk note, that chunk's notices and the status, in that order. |
| Offscreen.Player.StartPlayback | offscreen.js:300-327 | Nothing changes while playing. Otherwise the text is split into `Chunks(text, chunkSize)` when there are no chunks, and `No text to play` is reported when there are still none, with the cache untouched. When there are chunks, playback turns on at the current chunk (0 after a split), the cache order is touched at it on a hit and left alone otherwise, and the whole message sequence is stated. |
| Offscreen.Player.SplitThenBegin | offscreen.js:303-326 | With playback off and no chunks, `processText` runs first. The chunks are then `Chunks(text, chunkSize)`; with none, `No text to play` follows its messages; otherwise playback turns on at chunk 0 with the full message sequence. |
| Offscreen.Player.StartWithChunks | offscreen.js:303-326 | With no chunks, `No text to play` is reported and nothing else changes. Otherwise playback turns on at the current chunk as `Begin` states. |
| Offscreen.Player.StopPlayback | offscreen.js:615-637 | Playback turns off and the source is dropped. The cache, the chunks and the current chunk stay, and the status is reported. |
| Offscreen.Player.PerformCleanup | offscreen.js:173-210 | Playback turns off, the source is dropped, the cache and its order are emptied, and the current chunk goes back to 0. |
| Offscreen.Player.SplitAndStart | offscreen.js:139-143 | The chunks become `Chunks(text, chunkSize)` and the current chunk 0. While playing, nothing is processed and the cache is untouched: playback stays on and no task starts. Otherwise playback turns on at chunk 0 exactly when chunks came out, and with none `processText` runs a second time before `No text to play`. Every message sent is stated, in order. |
| Offscreen.Player.Analyze | offscreen.js:139-142 | The analysing note is sent, then `processText` splits the text into `Chunks(text, chunkSize)` from chunk 0 and sends its messages. |
| Offscreen.Player.HandleMessage | offscreen.js:119-170 | Messages for other targets are ignored. `heartbeat` answers with the position and changes nothing, and every other message gets a success reply. `processText` with text takes the text, merges the settings, splits into `Chunks(text, chunkSize)` from chunk 0, and leaves playback on when it was on; otherwise playback is on exactly when chunks came out. `processText` without text and any other action change nothing. `stopPlayback` turns playback off and drops the source, keeps the cache, its order, the chunks, the position, the text, the settings and the preload marker, and reports the status. `cleanup` drops the source, empties the cache and its order, goes back to chunk 0, keeps the chunks, the text, the settings and the preload marker, and sends nothing. |
| Background.ProcessingText | background.js:93 | The processing message is the message's own text, or `Processing...` when that is empty. It is never empty. |
| Background.ReceiveReport | background.js:57-125 | `statusUpdate` and `keepAlive` copy the three playback fields. `statusUpdate` while playing clears the processing state. `error` records the error and clears the processing state. `processingUpdate` sets it with the default text. `keepAlive` leaves the rest alone and broadcasts nothing. `offscreenReady` marks the document ready. Every broadcast carries the new state. Only the five report kinds are acknowledged. |
| Background.ReceiveRequest | background.js:129-188 | Only `readText`, `updateSelectedText` and `stopPlayback` change the state. `updateSelectedText` changes only the selected text. `readText` sets the text and playback is off when the listener answers: while playing, processing is off too and the stop is sent; otherwise processing is on with a notice past the initializing one and the close is requested. `stopPlayback` clears playing and processing before asking the player to stop. `getStatus` answers with the state. Only `checkServer` and `stopPlayback` answer later. |
| Background.StartReading | background.js:130-139 | `readText` runs `startTtsPlayback` up to its first `await`. While playing: the initializing broadcast, then playing and processing off and the stop sent, with the rest of `startTtsPlayback` pending. Otherwise: the initializing and preparing broadcasts, the large-text warning above 2000 words, then the close request. The text is recorded, the error and position are kept, and success is answered. |
| Background.Prepare | background.js:234-249 | Processing is on with the preparing notice, broadcast. Above 2000 words the notice becomes the large-text warning, broadcast again with the new state. Then the old document is closed and the rest of `startTtsPlayback` waits. |
| Background.Receive | background.js:54-195 | Work in progress always has a description. Reports never change the selected text, and requests never change the playback position. |
| Background.Supervisor.constructor | background.js:2-17 | The initial `ttsState`. |
| Background.Supervisor.OnMessage | background.js:54-195 | The listener changes the state, starts the effects and replies exactly as `Receive` says. |
| Background.Supervisor.OnReport | background.js:57-125 | The switch for reports behaves exactly as `ReceiveReport` says. |
| Background.Supervisor.OnStatusUpdate | background.js:59-80 | The `statusUpdate` case, as `ReceiveReport` says. |
| Background.Supervisor.OnError | background.js:82-88 | The `error` case, as `ReceiveReport` says. |
| Background.Supervisor.OnProcessingUpdate | background.js:90-96 | The `processingUpdate` case, as `ReceiveReport` says. |
| Background.Supervisor.OnKeepAlive | background.js:98-105 | The `keepAlive` case, as `ReceiveReport` says. |
| Background.Supervisor.OnOffscreenReady | background.js:107-118 | The `offscreenReady` case, as `ReceiveReport` says. |
| Background.Supervisor.OnRequest | background.js:129-188 | The switch for requests behaves exactly as `ReceiveRequest` says. |
| Background.Supervisor.OnReadText | background.js:130-139 | The `readText` case behaves exactly as `StartReading` says. |
| Background.Supervisor.HandleStopPlayback | background.js:198-207 | Playing and processing are off before the stop message is sent. This is also the first stretch of `readText` while playing. |
| Background.Supervisor.PrepareTts | background.js:234-249 | Processing is on with the preparing notice. Above 2000 words the notice becomes the large-text warning, broadcast a second time, before the old document is closed. The state and effects are those `Prepare` gives. |
| Background.Supervisor.ConnectTts | background.js:254-262 | The last error is cleared and the connecting notice is broadcast, before the text is sent to the player. |

## Left out

- Chrome extension APIs are left out: creating, closing and looking up the offscreen document, `chrome.storage`, the context menu, and the wiring of `sendMessage` and `onMessage`. The model returns these as effects or tasks.
- Timers are left out: the keep-alive interval and heartbeat monitoring, and the polling waits while the document is created. The one-second back-off after a fetch failure is the `Retry` task, and time itself is not modelled.
- The speech service's `fetch` and the server check are network calls. A request is the `SpeechRequest` value. Its result is a `FetchOutcome` parameter: ok with bytes, a bad status, or a thrown error. JSON encoding of the body is not modelled.
- The Web Audio API is left out: `AudioContext`, `decodeAudioData`, buffer sources, `start` and `stop`. Decoding is a `DecodeOutcome` parameter, and the source node is the index of the chunk it plays. `buffer.slice(0)` copies are value semantics.
- The document's lifecycle listeners (load, visibility and unload) and the console logging are left out.
- `preloadThreshold` is a float that is never read, so it is left out.
- The `try`/`catch` blocks around `processText` and the listener are left out. No exception can arise in the modelled code.
- `startTtsPlayback` is modelled in its synchronous stretches: the stop of a running playback (`HandleStopPlayback`, up to its first `await`), `PrepareTts` and `ConnectTts`. What it awaits (the 300 ms pauses, closing and creating the document) and its `catch` branch are left out; the pending continuation is the `ResumeAfterStop` or `ResumeAfterClose` effect. The rest of `handleStopPlayback` after its first `await` (the close and the final broadcast) is left out for the same reason.
- `ttsState.text`, `ttsState.chunks` and `ttsState.keepAliveInterval` are left out. The listener never writes them.
- Strings are sequences of Unicode characters. JavaScript lengths count UTF-16 code units, so lengths differ for characters outside the Basic Multilingual Plane.
- `chunkSize` is an integer and `maxCacheSize` a natural number. Non-numeric and fractional values are not modelled, and neither is a negative cache size, with which the source's eviction loop would never end. `message.settings` is a set of optional fields rather than an arbitrary object.
- popup.js and content.js only present the state and forward the selection, so they are left out.
- Offscreen.Player.HandleMessage: for `processText` with text it states the text, the settings, the chunks, the position, the playing flag and the tasks, but not the messages sent, the cache order or the fields it leaves alone; `SplitAndStart` states the messages and the cache order.
