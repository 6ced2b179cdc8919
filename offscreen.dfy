/**
  The offscreen player (`playerState` and the functions over it). Every
  asynchronous step of the original is an event method here: the part of a
  handler that runs before its first `await` is one method, and what runs
  after the awaited result arrives is another method, which the environment
  calls with that result. The methods return the continuations they leave
  pending as `Task`s.
 */
module Offscreen {
  import opened Text
  import opened Chunker
  import opened Lru
  import opened Protocol

  /** Raw audio bytes as the speech service returns them. */
  type Bytes = seq<bv8>

  datatype Settings = Settings(
    apiUrl: string,
    apiKey: string,
    voice: string,
    chunkSize: int,
    maxCacheSize: nat)

  const DefaultSettings := Settings("http://localhost:8880", "not-needed", "af_bella", 1000, 10)

  /** `{ ...settings, ...patch }`. */
  function Merge(s: Settings, p: SettingsPatch): Settings {
    Settings(
      if p.apiUrl.Some? then p.apiUrl.value else s.apiUrl,
      if p.apiKey.Some? then p.apiKey.value else s.apiKey,
      if p.voice.Some? then p.voice.value else s.voice,
      if p.chunkSize.Some? then p.chunkSize.value else s.chunkSize,
      if p.maxCacheSize.Some? then p.maxCacheSize.value else s.maxCacheSize)
  }

  /** The POST request for one chunk: URL, bearer credential and JSON body. */
  datatype SpeechRequest = SpeechRequest(
    url: string,
    authorization: string,
    model: string,
    voice: string,
    input: string,
    responseFormat: string)

  function RequestFor(settings: Settings, input: string): SpeechRequest {
    SpeechRequest(settings.apiUrl + "/audio/speech", "Bearer " + settings.apiKey,
      "kokoro", settings.voice, input, "mp3")
  }

  /** How a request to the speech service ended. */
  datatype FetchOutcome =
    | Response(ok: bool, status: nat, body: Bytes)
    | NetworkError(message: string)

  /** Why a request for audio failed. */
  datatype FetchFailure =
    | Thrown(message: string)  // the request itself threw
    | BadStatus(status: nat)   // the response status was not 2xx
    | EmptyAudio               // the response body was empty

  /** The error a request ends in; none for a usable response. */
  function FetchError(o: FetchOutcome): (r: Option<FetchFailure>)
    ensures r.None? <==> o.Response? && o.ok && o.body != []
    ensures r == Some(EmptyAudio) <==> o.Response? && o.ok && o.body == []
  {
    match o
    case NetworkError(m) => Some(Thrown(m))
    case Response(ok, status, body) =>
      if !ok then Some(BadStatus(status))
      else if body == [] then Some(EmptyAudio)
      else None
  }

  /** How decoding and starting a buffer ended. */
  datatype DecodeOutcome = Decoded | DecodeFailed(message: string)

  /** A continuation left pending by an event method. */
  datatype Task =
    | Fetch(index: nat, request: SpeechRequest)    // `processChunk` awaiting the speech service
    | Decode(index: nat, audio: Bytes)             // `playAudioBuffer` awaiting the decoder
    | Playing(index: nat)                          // a started source; its `ended` event is due
    | Preload(index: nat, request: SpeechRequest)  // `preloadNextChunk` awaiting the speech service
    | Retry(index: nat)                            // the one-second timer before `processChunk(index)`

  /** The progress notes the player sends (`sendProcessingUpdate`); chunk
      indices are zero-based here and shown one-based. */
  datatype Note =
    | Analyzing
    | Splitting
    | PreparingChunks(count: nat)
    | PreparingFirst
    | Generating(index: nat, total: nat)
    | ProcessingAudio(index: nat)
    | PreparingNext(index: nat, total: nat)

  /** The errors the player reports (`showError`). */
  datatype Problem =
    | NoTextProvided
    | ChunkingFailed
    | NoTextToPlay
    | FetchFailed(cause: FetchFailure)
    | PlaybackFailed(message: string)

  /** A message from the player to the background script. */
  datatype Outgoing =
    | Report(isPlaying: bool, currentChunk: nat, totalChunks: nat)  // `updateBackgroundStatus`
    | Progress(note: Note)
    | Failure(problem: Problem)

  function FetchFailureText(f: FetchFailure): string {
    match f
    case Thrown(m) => m
    case BadStatus(status) => "API request failed with status " + NatToString(status)
    case EmptyAudio => "Received empty audio data from server"
  }

  /** The text of a note; never empty, so the background script shows it
      rather than its default. */
  function NoteText(n: Note): (text: string)
    ensures text != []
  {
    match n
    case Analyzing => "Analyzing text and splitting into chunks..."
    case Splitting => "Splitting text into manageable chunks..."
    case PreparingChunks(count) => "Preparing to process " + NatToString(count) + " audio chunks..."
    case PreparingFirst => "Preparing to generate audio for the first chunk..."
    case Generating(index, total) =>
      "Generating audio for chunk " + NatToString(index + 1) + " of " + NatToString(total) + "..."
    case ProcessingAudio(index) => "Processing audio for chunk " + NatToString(index + 1) + "..."
    case PreparingNext(index, total) =>
      "Preparing next audio chunk (" + NatToString(index + 2) + " of " + NatToString(total) + ")..."
  }

  function ProblemText(p: Problem): string {
    match p
    case NoTextProvided => "No text provided"
    case ChunkingFailed => "Failed to process text into chunks"
    case NoTextToPlay => "No text to play"
    case FetchFailed(cause) => "Error fetching audio: " + FetchFailureText(cause)
    case PlaybackFailed(message) => "Error playing audio: " + message
  }

  /** The runtime message an outgoing message is sent as. */
  function Render(o: Outgoing): (m: Message)
    ensures m.target == ToBackground
    ensures o.Report? <==> m.action.StatusUpdate?
    ensures o.Report? ==> m.action == StatusUpdate(o.isPlaying, o.currentChunk, o.totalChunks)
    ensures o.Progress? <==> m.action.ProcessingUpdate? && m.action.message != []
    ensures o.Failure? <==> m.action.Error?
  {
    match o
    case Report(isPlaying, currentChunk, totalChunks) =>
      Message(ToBackground, StatusUpdate(isPlaying, currentChunk, totalChunks))
    case Progress(n) => Message(ToBackground, ProcessingUpdate(NoteText(n)))
    case Failure(p) => Message(ToBackground, Error(ProblemText(p)))
  }

  /** The cache and its order list agree, the list has no duplicates, no
      cached buffer is empty, and the list is the front of `recency`, the
      order in which the cached chunks were last used. */
  ghost predicate CacheInvariant(cache: map<nat, Bytes>, order: seq<nat>, recency: seq<nat>) {
    && Distinct(order)
    && cache.Keys == Elems(order)
    && (forall k :: k in cache ==> cache[k] != [])
    && order <= recency
  }

  /** A hit moves the entry to the front of both lists and keeps the
      invariant. */
  lemma HitKeepsInvariant(cache: map<nat, Bytes>, order: seq<nat>, recency: seq<nat>, x: nat)
    requires CacheInvariant(cache, order, recency) && x in cache
    ensures CacheInvariant(cache, Touch(order, x), Touch(recency, x))
  {
    TouchFacts(order, x);
    TouchPrefix(order, recency, x);
  }

  /** Storing a non-empty buffer and evicting down to `limit` entries keeps
      the invariant. */
  lemma StoreKeepsInvariant(cache: map<nat, Bytes>, order: seq<nat>, recency: seq<nat>, x: nat, b: Bytes, limit: nat)
    requires CacheInvariant(cache, order, recency) && b != [] && limit >= 1
    ensures CacheInvariant(cache[x := b] - Elems(Evicted(limit, Touch(order, x))),
      Take(limit, Touch(order, x)), Touch(recency, x))
  {
    StoreFacts(cache, order, x, b, limit);
    TouchPrefix(order, recency, x);
    TakePrefix(Touch(order, x), Touch(recency, x), limit);
  }

  /** The messages `processText` sends for `text` when it leaves `count`
      chunks: a failure for empty text; otherwise the splitting note, then a
      failure when no chunk came out or the chunk count. */
  function TextNotices(text: string, count: nat): seq<Outgoing> {
    if text == [] then [Failure(NoTextProvided)]
    else
      [Progress(Splitting)] + (if count == 0 then [Failure(ChunkingFailed)] else [Progress(PreparingChunks(count))])
  }

  function Last<T>(s: seq<T>): T
    requires s != []
  {
    s[|s| - 1]
  }

  class Player {
    var text: string
    var chunks: seq<string>
    var currentChunk: nat
    var totalChunks: nat
    var isPlaying: bool
    var audioCache: map<nat, Bytes>
    var audioCacheOrder: seq<nat>
    var preloadingChunk: int
    /** The chunk whose source node is held for `stop`, if any. */
    var audioSource: Option<nat>
    var settings: Settings
    /** Messages sent to the background script, oldest first. */
    var outbox: seq<Outgoing>
    /** Every chunk used (a cache hit or a store) since the last cleanup,
        most recently used first: `RecencyOrder` of the accesses. */
    ghost var recency: seq<nat>

    ghost predicate Valid()
      reads this`chunks, this`totalChunks, this`currentChunk, this`preloadingChunk
      reads this`audioCache, this`audioCacheOrder, this`recency
    {
      && totalChunks == |chunks|
      && (currentChunk == 0 || currentChunk < |chunks|)
      && preloadingChunk >= -1
      && CacheInvariant(audioCache, audioCacheOrder, recency)
    }

    /** The status `updateBackgroundStatus` sends. */
    function Status(): Outgoing
      reads this`isPlaying, this`currentChunk, this`totalChunks
    {
      Report(isPlaying, currentChunk, totalChunks)
    }

    /** The messages `processChunk(index)` sends when it goes ahead: the
        status, then, unless the audio is cached, the generating note. */
    function ChunkNotices(index: nat): seq<Outgoing>
      reads this`isPlaying, this`totalChunks, this`audioCache
    {
      if index in audioCache then [Report(isPlaying, index, totalChunks)]
      else [Report(isPlaying, index, totalChunks), Progress(Generating(index, totalChunks))]
    }

    /** What `processChunk(index)` leaves pending when it goes ahead: the
        decode of the cached buffer, or the request to the speech service. */
    function ChunkTasks(index: nat): seq<Task>
      requires index < |chunks|
      reads this`chunks, this`audioCache, this`settings
    {
      if index in audioCache then [Decode(index, audioCache[index])]
      else [Fetch(index, RequestFor(settings, chunks[index]))]
    }

    /** The recency lists after `processChunk(index)` went ahead from
        `order` and `used`: touched at `index` on a cache hit, unchanged
        otherwise. */
    ghost predicate TouchedAt(order: seq<nat>, used: seq<nat>, index: nat)
      reads this`audioCache, this`audioCacheOrder, this`recency
    {
      if index in audioCache then audioCacheOrder == Touch(order, index) && recency == Touch(used, index)
      else audioCacheOrder == order && recency == used
    }

    /** Whether `preloadNextChunk(index)` starts a request. */
    predicate PreloadStarts(index: nat)
      reads this`chunks, this`audioCache, this`preloadingChunk
    {
      index < |chunks| && index !in audioCache && preloadingChunk != index
    }

    constructor()
      ensures Valid()
      ensures text == [] && chunks == [] && currentChunk == 0 && totalChunks == 0
      ensures !isPlaying && audioSource == None && preloadingChunk == -1
      ensures audioCache == map[] && audioCacheOrder == [] && recency == []
      ensures settings == DefaultSettings && outbox == []
    {
      text := [];
      chunks := [];
      currentChunk := 0;
      totalChunks := 0;
      isPlaying := false;
      audioCache := map[];
      audioCacheOrder := [];
      preloadingChunk := -1;
      audioSource := None;
      settings := DefaultSettings;
      outbox := [];
      recency := [];
    }

    /** `updateCacheOrder`: move (or add) `index` to the front. */
    method UpdateCacheOrder(index: nat)
      requires Distinct(audioCacheOrder)
      modifies this`audioCacheOrder, this`recency
      ensures audioCacheOrder == Touch(old(audioCacheOrder), index)
      ensures recency == Touch(old(recency), index)
    {
      var existingPos := IndexOf(audioCacheOrder, index);
      if existingPos != -1 {
        SpliceIsWithout(audioCacheOrder, index);
        audioCacheOrder := audioCacheOrder[..existingPos] + audioCacheOrder[existingPos + 1..];
      } else {
        WithoutAbsent(audioCacheOrder, index);
      }
      audioCacheOrder := [index] + audioCacheOrder;
      recency := Touch(recency, index);
    }

    /** `cacheAudioBuffer`: store `buffer` as the most recently used entry,
        then evict from the back until at most `maxCacheSize || 10` entries
        remain. */
    method CacheAudioBuffer(index: nat, buffer: Bytes)
      requires Valid() && buffer != []
      modifies this`audioCache, this`audioCacheOrder, this`recency
      ensures Valid()
      ensures audioCacheOrder == Take(Limit(settings.maxCacheSize), Touch(old(audioCacheOrder), index))
      ensures audioCache == old(audioCache)[index := buffer]
        - Elems(Evicted(Limit(settings.maxCacheSize), Touch(old(audioCacheOrder), index)))
      ensures recency == Touch(old(recency), index)
    {
      var maxSize := Limit(settings.maxCacheSize);
      StoreKeepsInvariant(audioCache, audioCacheOrder, recency, index, buffer, maxSize);
      UpdateCacheOrder(index);
      audioCache := audioCache[index := buffer];
      if |audioCacheOrder| > maxSize {
        EvictOldest(maxSize);
      } else {
        assert Evicted(maxSize, audioCacheOrder) == [];
      }
    }

    /** The loop of `cacheAudioBuffer`: pop the order list from the back,
        deleting each popped entry, until at most `maxSize` entries remain. */
    method EvictOldest(maxSize: nat)
      modifies this`audioCacheOrder, this`audioCache
      ensures audioCacheOrder == Take(maxSize, old(audioCacheOrder))
      ensures audioCache == old(audioCache) - Elems(Evicted(maxSize, old(audioCacheOrder)))
    {
      while |audioCacheOrder| > maxSize
        invariant audioCacheOrder <= old(audioCacheOrder)
        invariant |Take(maxSize, old(audioCacheOrder))| <= |audioCacheOrder|
        invariant audioCache == old(audioCache) - Elems(old(audioCacheOrder)[|audioCacheOrder|..])
        decreases |audioCacheOrder|
      {
        var oldestIndex := audioCacheOrder[|audioCacheOrder| - 1];
        PopOne(old(audioCache), old(audioCacheOrder), |audioCacheOrder|);
        audioCacheOrder := audioCacheOrder[..|audioCacheOrder| - 1];
        audioCache := audioCache - {oldestIndex};
      }
      assert old(audioCacheOrder)[|audioCacheOrder|..] == Evicted(maxSize, old(audioCacheOrder));
    }

    /** `playAudioBuffer` up to its first `await`: decode a copy of `audio`. */
    method PlayAudioBuffer(audio: Bytes, index: nat) returns (spawned: seq<Task>)
      ensures spawned == [Decode(index, audio)]
    {
      spawned := [Decode(index, audio)];
    }

    /** `processChunk` up to its first `await`: nothing unless `index` is a
        chunk and playback is on; otherwise make it the current chunk, report
        the status, and either play the cached audio (marking it most
        recently used) or request it from the speech service. */
    method ProcessChunk(index: nat) returns (spawned: seq<Task>)
      requires Valid()
      modifies this`currentChunk, this`outbox, this`audioCacheOrder, this`recency
      decreases if index in audioCache then 2 else 0
      ensures Valid()
      ensures old(index >= |chunks| || !isPlaying) ==>
        unchanged(this`currentChunk, this`outbox, this`audioCacheOrder, this`recency) && spawned == []
      ensures old(index < |chunks| && isPlaying) ==>
        && currentChunk == index
        && outbox == old(outbox) + ChunkNotices(index)
        && spawned == ChunkTasks(index)
        && (index in audioCache ==>
              audioCacheOrder == Touch(old(audioCacheOrder), index) && recency == Touch(old(recency), index))
        && (index !in audioCache ==> unchanged(this`audioCacheOrder, this`recency))
    {
      if index >= |chunks| || !isPlaying {
        return [];
      }
      currentChunk := index;
      if index in audioCache {
        outbox := outbox + [Status()];
        HitKeepsInvariant(audioCache, audioCacheOrder, recency, index);
        UpdateCacheOrder(index);
        assert index in audioCache && currentChunk == index;
        spawned := PlayAudioFromCache(index);
      } else {
        outbox := outbox + [Status(), Progress(Generating(index, totalChunks))];
        spawned := [Fetch(index, RequestFor(settings, chunks[index]))];
      }
    }

    /** `playAudioFromCache`: decode the cached buffer, or go back to
        `processChunk` when the entry is missing. */
    method PlayAudioFromCache(index: nat) returns (spawned: seq<Task>)
      requires Valid()
      modifies this`currentChunk, this`outbox, this`audioCacheOrder, this`recency
      decreases 1
      ensures Valid()
      ensures index in audioCache ==>
        unchanged(this`currentChunk, this`outbox, this`audioCacheOrder, this`recency)
        && spawned == [Decode(index, audioCache[index])]
      ensures index !in audioCache ==> unchanged(this`audioCacheOrder, this`recency)
      ensures index !in audioCache && (index >= |chunks| || !isPlaying) ==>
        unchanged(this`currentChunk, this`outbox) && spawned == []
      ensures index !in audioCache && index < |chunks| && isPlaying ==>
        && currentChunk == index
        && outbox == old(outbox) + ChunkNotices(index)
        && spawned == ChunkTasks(index)
    {
      if index in audioCache {
        spawned := PlayAudioBuffer(audioCache[index], index);
      } else {
        spawned := ProcessChunk(index);
      }
    }

    /** `processChunk` after the speech service answered. Usable audio is
        cached whatever the player is doing, and decoded only when playback
        is on and `index` is still the current chunk. A failure reports the
        error and retries with the next chunk after a delay, or stops
        playback after the last chunk. */
    method OnFetchResult(index: nat, outcome: FetchOutcome) returns (spawned: seq<Task>)
      requires Valid()
      modifies this`outbox, this`audioCache, this`audioCacheOrder, this`recency, this`isPlaying
      ensures Valid()
      ensures FetchError(outcome).None? ==>
        && isPlaying == old(isPlaying)
        && audioCacheOrder == Take(Limit(settings.maxCacheSize), Touch(old(audioCacheOrder), index))
        && audioCache == old(audioCache)[index := outcome.body]
             - Elems(Evicted(Limit(settings.maxCacheSize), Touch(old(audioCacheOrder), index)))
        && recency == Touch(old(recency), index)
        && outbox == old(outbox) + [Progress(ProcessingAudio(index))]
        && spawned == (if isPlaying && currentChunk == index then [Decode(index, outcome.body)] else [])
      ensures FetchError(outcome).Some? ==>
        && unchanged(this`audioCache, this`audioCacheOrder, this`recency)
        && (index + 1 < totalChunks ==>
              isPlaying == old(isPlaying)
              && outbox == old(outbox) + [Failure(FetchFailed(FetchError(outcome).value))]
              && spawned == [Retry(index + 1)])
        && (index + 1 >= totalChunks ==>
              !isPlaying
              && outbox == old(outbox) + [Failure(FetchFailed(FetchError(outcome).value)), Status()]
              && spawned == [])
      ensures !old(isPlaying) ==> !isPlaying
    {
      var error := FetchError(outcome);
      if error.None? {
        outbox := outbox + [Progress(ProcessingAudio(index))];
        CacheAudioBuffer(index, outcome.body);
        if isPlaying && currentChunk == index {
          spawned := PlayAudioBuffer(outcome.body, index);
        } else {
          spawned := [];
        }
      } else {
        outbox := outbox + [Failure(FetchFailed(error.value))];
        if index + 1 < totalChunks {
          spawned := [Retry(index + 1)];
        } else {
          isPlaying := false;
          outbox := outbox + [Status()];
          spawned := [];
        }
      }
    }

    /** `preloadNextChunk` up to its `await`: request `index` unless it is
        out of range, cached, or already being preloaded. Playback need not
        be on. */
    method PreloadNextChunk(index: nat) returns (spawned: seq<Task>)
      requires Valid()
      modifies this`preloadingChunk
      ensures Valid()
      ensures !old(PreloadStarts(index)) ==> unchanged(this`preloadingChunk) && spawned == []
      ensures old(PreloadStarts(index)) ==>
        && preloadingChunk == index
        && spawned == [Preload(index, RequestFor(settings, chunks[index]))]
    {
      if index >= |chunks| || index in audioCache || preloadingChunk == index {
        return [];
      }
      preloadingChunk := index;
      spawned := [Preload(index, RequestFor(settings, chunks[index]))];
    }

    /** `preloadNextChunk` after the speech service answered: usable audio is
        cached, and in every case no preload is marked as running. */
    method OnPreloadResult(index: nat, outcome: FetchOutcome)
      requires Valid()
      modifies this`preloadingChunk, this`audioCache, this`audioCacheOrder, this`recency
      ensures Valid()
      ensures preloadingChunk == -1
      ensures FetchError(outcome).None? ==>
        && audioCacheOrder == Take(Limit(settings.maxCacheSize), Touch(old(audioCacheOrder), index))
        && audioCache == old(audioCache)[index := outcome.body]
             - Elems(Evicted(Limit(settings.maxCacheSize), Touch(old(audioCacheOrder), index)))
        && recency == Touch(old(recency), index)
      ensures FetchError(outcome).Some? ==> unchanged(this`audioCache, this`audioCacheOrder, this`recency)
    {
      if FetchError(outcome).None? {
        CacheAudioBuffer(index, outcome.body);
      }
      preloadingChunk := -1;
    }

    /** `playAudioBuffer` after decoding. A decoded buffer is played only if
        playback is on and `index` is still the current chunk; then chunk
        `index + 1` is preloaded. A failure reports the error and goes on with
        the next chunk at once, or stops playback after the last chunk; this
        path does not look at the current chunk. */
    method OnDecodeResult(index: nat, outcome: DecodeOutcome) returns (spawned: seq<Task>)
      requires Valid()
      modifies this`audioSource, this`outbox, this`preloadingChunk, this`currentChunk
      modifies this`audioCacheOrder, this`recency, this`isPlaying
      ensures Valid()
      ensures outcome.Decoded? && old(!isPlaying || currentChunk != index) ==>
        unchanged(this`audioSource, this`outbox, this`preloadingChunk, this`currentChunk)
        && unchanged(this`audioCacheOrder, this`recency, this`isPlaying)
        && spawned == []
      ensures outcome.Decoded? && old(isPlaying && currentChunk == index) ==>
        && unchanged(this`isPlaying, this`currentChunk, this`audioCacheOrder, this`recency)
        && audioSource == Some(index)
        && (old(index + 1 < totalChunks && PreloadStarts(index + 1)) ==>
              preloadingChunk == index + 1
              && spawned == [Playing(index), Preload(index + 1, RequestFor(settings, chunks[index + 1]))])
        && (!old(index + 1 < totalChunks && PreloadStarts(index + 1)) ==>
              unchanged(this`preloadingChunk) && spawned == [Playing(index)])
        && outbox == old(outbox) + [Status()]
      ensures outcome.DecodeFailed? && index + 1 >= totalChunks ==>
        && !isPlaying
        && unchanged(this`currentChunk, this`audioCacheOrder, this`recency, this`audioSource, this`preloadingChunk)
        && outbox == old(outbox) + [Failure(PlaybackFailed(outcome.message)), Status()]
        && spawned == []
      ensures outcome.DecodeFailed? && index + 1 < totalChunks ==>
        && unchanged(this`isPlaying, this`audioSource, this`preloadingChunk)
        && (old(isPlaying) ==>
              currentChunk == index + 1
              && outbox == old(outbox) + [Failure(PlaybackFailed(outcome.message))] + ChunkNotices(index + 1)
              && spawned == ChunkTasks(index + 1))
        && (!old(isPlaying) ==>
              unchanged(this`currentChunk, this`audioCacheOrder, this`recency)
              && outbox == old(outbox) + [Failure(PlaybackFailed(outcome.message))]
              && spawned == [])
      ensures !old(isPlaying) ==> !isPlaying && spawned == []
      ensures audioSource != old(audioSource) ==> isPlaying && audioSource == Some(currentChunk)
    {
      match outcome {
        case Decoded =>
          spawned := OnDecoded(index);
        case DecodeFailed(message) =>
          spawned := OnDecodeFailed(index, message);
      }
    }

    /** The decoded branch: nothing when playback is off or `index` is no
        longer the current chunk; otherwise start the source, preload the
        next chunk and report the status. */
    method OnDecoded(index: nat) returns (spawned: seq<Task>)
      requires Valid()
      modifies this`audioSource, this`outbox, this`preloadingChunk
      ensures Valid()
      ensures old(!isPlaying || currentChunk != index) ==>
        unchanged(this`audioSource, this`outbox, this`preloadingChunk) && spawned == []
      ensures old(isPlaying && currentChunk == index) ==>
        && audioSource == Some(index)
        && (old(index + 1 < totalChunks && PreloadStarts(index + 1)) ==>
              preloadingChunk == index + 1
              && spawned == [Playing(index), Preload(index + 1, RequestFor(settings, chunks[index + 1]))])
        && (!old(index + 1 < totalChunks && PreloadStarts(index + 1)) ==>
              unchanged(this`preloadingChunk) && spawned == [Playing(index)])
        && outbox == old(outbox) + [Status()]
    {
      if !isPlaying || currentChunk != index {
        return [];
      }
      audioSource := Some(index);
      spawned := [Playing(index)];
      if index + 1 < totalChunks && index + 1 !in audioCache {
        var preload := PreloadNextChunk(index + 1);
        spawned := spawned + preload;
      }
      outbox := outbox + [Status()];
    }

    /** The failure branch: report the error, then go on with the next chunk
        or, after the last one, stop playback. */
    method OnDecodeFailed(index: nat, message: string) returns (spawned: seq<Task>)
      requires Valid()
      modifies this`outbox, this`currentChunk, this`audioCacheOrder, this`recency, this`isPlaying
      ensures Valid()
      ensures index + 1 >= totalChunks ==>
        && !isPlaying
        && unchanged(this`currentChunk, this`audioCacheOrder, this`recency)
        && outbox == old(outbox) + [Failure(PlaybackFailed(message)), Status()]
        && spawned == []
      ensures index + 1 < totalChunks ==>
        && unchanged(this`isPlaying)
        && (old(isPlaying) ==>
              currentChunk == index + 1
              && outbox == old(outbox) + [Failure(PlaybackFailed(message))] + ChunkNotices(index + 1)
              && spawned == ChunkTasks(index + 1))
        && (!old(isPlaying) ==>
              unchanged(this`currentChunk, this`audioCacheOrder, this`recency)
              && outbox == old(outbox) + [Failure(PlaybackFailed(message))]
              && spawned == [])
    {
      outbox := outbox + [Failure(PlaybackFailed(message))];
      if index + 1 < totalChunks {
        spawned := ProcessChunk(index + 1);
      } else {
        isPlaying := false;
        outbox := outbox + [Status()];
        spawned := [];
      }
    }

    /** The source's `ended` handler. While playback is on and `index` is not
        the last chunk, go on with the next chunk (`Advance`); the current
        chunk is not consulted. When `index` is the last chunk, playback
        ends. */
    method OnEnded(index: nat) returns (spawned: seq<Task>)
      requires Valid()
      modifies this`audioSource, this`outbox, this`preloadingChunk, this`currentChunk
      modifies this`audioCacheOrder, this`recency, this`isPlaying
      ensures Valid()
      ensures index + 1 < totalChunks && old(isPlaying) ==>
        && unchanged(this`isPlaying, this`audioSource)
        && currentChunk == index + 1
        && outbox == old(outbox) + [Progress(PreparingNext(index, totalChunks))] + ChunkNotices(index + 1)
        && (old(index + 2 < totalChunks && PreloadStarts(index + 2)) ==>
              preloadingChunk == index + 2
              && spawned == [Preload(index + 2, RequestFor(settings, chunks[index + 2]))] + ChunkTasks(index + 1))
        && (!old(index + 2 < totalChunks && PreloadStarts(index + 2)) ==>
              unchanged(this`preloadingChunk) && spawned == ChunkTasks(index + 1))
      ensures index + 1 >= totalChunks ==>
        && !isPlaying && audioSource == None
        && unchanged(this`currentChunk, this`audioCacheOrder, this`recency, this`preloadingChunk)
        && outbox == old(outbox) + [Status()]
        && spawned == []
      ensures index + 1 < totalChunks && !old(isPlaying) ==>
        unchanged(this`audioSource, this`outbox, this`preloadingChunk, this`currentChunk)
        && unchanged(this`audioCacheOrder, this`recency, this`isPlaying)
        && spawned == []
    {
      if index + 1 < totalChunks && isPlaying {
        spawned := Advance(index);
      } else if index + 1 >= totalChunks {
        isPlaying := false;
        audioSource := None;
        outbox := outbox + [Status()];
        spawned := [];
      } else {
        spawned := [];
      }
    }

    /** The `ended` handler when playback goes on: announce chunk
        `index + 1`, preload chunk `index + 2`, then process chunk
        `index + 1`. */
    method Advance(index: nat) returns (spawned: seq<Task>)
      requires Valid() && index + 1 < totalChunks && isPlaying
      modifies this`outbox, this`preloadingChunk, this`currentChunk, this`audioCacheOrder, this`recency
      ensures Valid()
      ensures currentChunk == index + 1
      ensures outbox == old(outbox) + [Progress(PreparingNext(index, totalChunks))] + ChunkNotices(index + 1)
      ensures old(index + 2 < totalChunks && PreloadStarts(index + 2)) ==>
        preloadingChunk == index + 2
        && spawned == [Preload(index + 2, RequestFor(settings, chunks[index + 2]))] + ChunkTasks(index + 1)
      ensures !old(index + 2 < totalChunks && PreloadStarts(index + 2)) ==>
        unchanged(this`preloadingChunk) && spawned == ChunkTasks(index + 1)
    {
      outbox := outbox + [Progress(PreparingNext(index, totalChunks))];
      ghost var announced := outbox;
      var preload: seq<Task> := [];
      if index + 2 < totalChunks && index + 2 !in audioCache {
        preload := PreloadNextChunk(index + 2);
      }
      assert index + 1 < |chunks| && isPlaying && outbox == announced;
      var next := ProcessChunk(index + 1);
      assert outbox == announced + ChunkNotices(index + 1);
      if preload == [] {
        spawned := next;
      } else {
        spawned := preload + next;
      }
    }

    /** `processText`: split the text into chunks with the current chunk
        size and restart from the first chunk. The cache is kept. */
    method ProcessText()
      requires Valid()
      modifies this`outbox, this`chunks, this`totalChunks, this`currentChunk
      ensures Valid()
      ensures text == [] ==> unchanged(this`chunks, this`currentChunk, this`totalChunks)
      ensures text != [] ==> chunks == Chunks(text, settings.chunkSize) && currentChunk == 0
      ensures outbox == old(outbox) + TextNotices(text, |chunks|)
    {
      if text == [] {
        outbox := outbox + [Failure(NoTextProvided)];
      } else {
        ghost var before := outbox;
        outbox := outbox + [Progress(Splitting)];
        Resplit();
        ReportChunks();
        AppendAssoc(before, [Progress(Splitting)],
          if |chunks| == 0 then [Failure(ChunkingFailed)] else [Progress(PreparingChunks(|chunks|))]);
      }
    }

    /** The end of `processText`: a failure when no chunk came out, the
        chunk count otherwise. */
    method ReportChunks()
      modifies this`outbox
      ensures outbox == old(outbox)
        + (if |chunks| == 0 then [Failure(ChunkingFailed)] else [Progress(PreparingChunks(|chunks|))])
    {
      if |chunks| == 0 {
        outbox := outbox + [Failure(ChunkingFailed)];
      } else {
        outbox := outbox + [Progress(PreparingChunks(|chunks|))];
      }
    }

    /** The chunking step of `processText`: the chunks of the text, and the
        first of them as the current chunk. */
    method Resplit()
      requires Valid()
      modifies this`chunks, this`totalChunks, this`currentChunk
      ensures Valid()
      ensures chunks == Chunks(text, settings.chunkSize) && currentChunk == 0
    {
      var newChunks := SplitTextIntoChunks(text, settings.chunkSize);
      chunks := newChunks;
      totalChunks := |newChunks|;
      currentChunk := 0;
    }

    /** `startPlayback`: nothing if already playing; split the text first if
        there are no chunks; then, if there are chunks, turn playback on and
        process the current chunk. */
    method StartPlayback() returns (spawned: seq<Task>)
      requires Valid()
      modifies this`outbox, this`chunks, this`totalChunks, this`currentChunk
      modifies this`isPlaying, this`audioCacheOrder, this`recency
      ensures Valid()
      ensures old(isPlaying) ==>
        unchanged(this`outbox, this`chunks, this`totalChunks, this`currentChunk)
        && unchanged(this`isPlaying, this`audioCacheOrder, this`recency)
        && spawned == []
      ensures !old(isPlaying) ==>
        chunks == (if old(chunks) == [] && text != [] then Chunks(text, settings.chunkSize) else old(chunks))
      ensures !old(isPlaying) && chunks == [] ==>
        && !isPlaying && spawned == []
        && outbox == old(outbox) + TextNotices(text, |chunks|) + [Failure(NoTextToPlay)]
        && unchanged(this`audioCacheOrder, this`recency)
      ensures !old(isPlaying) && chunks != [] ==>
        && isPlaying
        && currentChunk == (if old(chunks) == [] then 0 else old(currentChunk))
        && spawned == ChunkTasks(currentChunk)
        && outbox == old(outbox) + (if old(chunks) == [] then TextNotices(text, |chunks|) else [])
             + [Progress(PreparingFirst)] + ChunkNotices(currentChunk) + [Status()]
        && TouchedAt(old(audioCacheOrder), old(recency), currentChunk)
    {
      if isPlaying {
        return [];
      }
      if |chunks| == 0 {
        spawned := SplitThenBegin();
      } else {
        spawned := StartWithChunks();
      }
    }

    /** `startPlayback` when playback is off and there are no chunks yet:
        `processText` first, then the rest. */
    method SplitThenBegin() returns (spawned: seq<Task>)
      requires Valid() && !isPlaying && chunks == []
      modifies this`outbox, this`chunks, this`totalChunks, this`currentChunk
      modifies this`isPlaying, this`audioCacheOrder, this`recency
      ensures Valid()
      ensures chunks == (if text != [] then Chunks(text, settings.chunkSize) else [])
      ensures chunks == [] ==>
        && !isPlaying && spawned == []
        && outbox == old(outbox) + TextNotices(text, 0) + [Failure(NoTextToPlay)]
        && unchanged(this`audioCacheOrder, this`recency)
      ensures chunks != [] ==>
        && isPlaying
        && currentChunk == 0
        && spawned == ChunkTasks(0)
        && outbox == old(outbox) + TextNotices(text, |chunks|)
             + [Progress(PreparingFirst)] + ChunkNotices(0) + [Status()]
        && TouchedAt(old(audioCacheOrder), old(recency), 0)
    {
      ghost var order, used := audioCacheOrder, recency;
      ProcessText();
      assert !isPlaying && audioCacheOrder == order && recency == used;
      spawned := StartWithChunks();
    }

    /** The rest of `startPlayback` once the text has been split if needed:
        `No text to play` when there are still no chunks, `Begin`
        otherwise. */
    method StartWithChunks() returns (spawned: seq<Task>)
      requires Valid() && !isPlaying
      modifies this`outbox, this`isPlaying, this`currentChunk, this`audioCacheOrder, this`recency
      ensures Valid()
      ensures chunks == [] ==>
        && !isPlaying && spawned == []
        && outbox == old(outbox) + [Failure(NoTextToPlay)]
        && unchanged(this`audioCacheOrder, this`recency, this`currentChunk)
      ensures chunks != [] ==>
        && isPlaying
        && currentChunk == old(currentChunk)
        && spawned == ChunkTasks(currentChunk)
        && outbox == old(outbox) + [Progress(PreparingFirst)] + ChunkNotices(currentChunk) + [Status()]
        && TouchedAt(old(audioCacheOrder), old(recency), currentChunk)
    {
      if |chunks| == 0 {
        outbox := outbox + [Failure(NoTextToPlay)];
        return [];
      }
      spawned := Begin();
    }

    /** The end of `startPlayback`, once there are chunks: turn playback on,
        process the current chunk, and report the status. */
    method Begin() returns (spawned: seq<Task>)
      requires Valid() && !isPlaying && chunks != []
      modifies this`outbox, this`isPlaying, this`currentChunk, this`audioCacheOrder, this`recency
      ensures Valid()
      ensures isPlaying && currentChunk == old(currentChunk)
      ensures spawned == ChunkTasks(currentChunk)
      ensures outbox == old(outbox) + [Progress(PreparingFirst)] + ChunkNotices(currentChunk) + [Status()]
      ensures TouchedAt(old(audioCacheOrder), old(recency), currentChunk)
    {
      outbox := outbox + [Progress(PreparingFirst)];
      ghost var announced := outbox;
      isPlaying := true;
      spawned := ProcessChunk(currentChunk);
      assert outbox == announced + ChunkNotices(currentChunk);
      outbox := outbox + [Status()];
    }

    /** `stopPlayback`: drop the source and turn playback off; the cache,
        the chunks and the current chunk stay. */
    method StopPlayback()
      requires Valid()
      modifies this`audioSource, this`isPlaying, this`outbox
      ensures Valid()
      ensures !isPlaying && audioSource == None
      ensures outbox == old(outbox) + [Report(false, currentChunk, totalChunks)]
    {
      audioSource := None;
      isPlaying := false;
      outbox := outbox + [Status()];
    }

    /** `performCleanup`: drop the source, empty the cache, turn playback
        off and go back to the first chunk, without telling the background
        script. */
    method PerformCleanup()
      requires Valid()
      modifies this`audioSource, this`audioCache, this`audioCacheOrder, this`recency
      modifies this`isPlaying, this`currentChunk
      ensures Valid()
      ensures !isPlaying && audioSource == None && currentChunk == 0
      ensures audioCache == map[] && audioCacheOrder == [] && recency == []
    {
      audioSource := None;
      audioCache := map[];
      audioCacheOrder := [];
      recency := [];
      isPlaying := false;
      currentChunk := 0;
    }

    /** `handleMessages`: messages for another target are left alone; the
        others are answered at once, `heartbeat` with the playback position
        and the rest with a plain success. Returns the first response sent. */
    method HandleMessage(msg: Message) returns (spawned: seq<Task>, reply: Option<Reply>)
      requires Valid()
      modifies this
      ensures Valid()
      ensures msg.target != ToOffscreen ==> unchanged(this) && spawned == [] && reply == None
      ensures msg.target == ToOffscreen && !msg.action.Heartbeat? ==> reply == Some(Ack(true))
      ensures msg.target == ToOffscreen && msg.action.Heartbeat? ==>
        unchanged(this) && spawned == [] && reply == Some(Alive(isPlaying, currentChunk, totalChunks))
      ensures msg.target == ToOffscreen && msg.action.StopPlayback? ==>
        && !isPlaying && audioSource == None && spawned == []
        && unchanged(this`audioCache, this`chunks, this`currentChunk, this`totalChunks)
        && unchanged(this`audioCacheOrder, this`recency, this`preloadingChunk, this`text, this`settings)
        && outbox == old(outbox) + [Report(false, currentChunk, totalChunks)]
      ensures msg.target == ToOffscreen && msg.action.Cleanup? ==>
        && !isPlaying && audioSource == None && currentChunk == 0 && spawned == []
        && audioCache == map[] && audioCacheOrder == [] && recency == []
        && unchanged(this`outbox, this`chunks, this`totalChunks, this`text, this`settings, this`preloadingChunk)
      ensures (msg.target == ToOffscreen && !msg.action.ProcessText? && !msg.action.StopPlayback?
               && !msg.action.Heartbeat? && !msg.action.Cleanup?) ==> unchanged(this) && spawned == []
      ensures msg.target == ToOffscreen && msg.action.ProcessText? && msg.action.text == [] ==>
        unchanged(this) && spawned == []
      ensures msg.target == ToOffscreen && msg.action.ProcessText? && msg.action.text != [] ==>
        && text == msg.action.text
        && settings == (if msg.action.settings.Some? then Merge(old(settings), msg.action.settings.value) else old(settings))
        && chunks == Chunks(text, settings.chunkSize) && currentChunk == 0
        && (old(isPlaying) ==> isPlaying && spawned == [])
        && (!old(isPlaying) ==> isPlaying == (chunks != []))
        && (!old(isPlaying) && chunks != [] ==> spawned == ChunkTasks(0))
      ensures !old(isPlaying) && !(msg.target == ToOffscreen && msg.action.ProcessText?) ==> !isPlaying
    {
      if msg.target != ToOffscreen {
        return [], None;
      }
      spawned := [];
      reply := Some(Ack(true));
      match msg.action {
        case ProcessText(newText, patch) =>
          if newText != [] {
            text := newText;
            if patch.Some? {
              settings := Merge(settings, patch.value);
            }
            spawned := SplitAndStart();
          }
        case StopPlayback =>
          StopPlayback();
        case Heartbeat =>
          reply := Some(Alive(isPlaying, currentChunk, totalChunks));
        case Cleanup =>
          PerformCleanup();
        case _ =>
      }
    }

    /** What a `processText` message with text does once the text and the
        settings are taken: announce the analysis, split, and start playback.
        When no chunk comes out, `startPlayback` runs `processText` a second
        time. While playback is on, `startPlayback` returns at once: the new
        chunks replace the old ones and the current chunk becomes 0, but no
        chunk is processed. Playback goes on only when the old source ends
        (`OnEnded`), with the chunk after the old index in the new list. */
    method SplitAndStart() returns (spawned: seq<Task>)
      requires Valid() && text != []
      modifies this`outbox, this`chunks, this`totalChunks, this`currentChunk
      modifies this`isPlaying, this`audioCacheOrder, this`recency
      ensures Valid()
      ensures chunks == Chunks(text, settings.chunkSize) && currentChunk == 0
      ensures old(isPlaying) ==>
        && isPlaying && spawned == []
        && outbox == old(outbox) + [Progress(Analyzing)] + TextNotices(text, |chunks|)
        && unchanged(this`audioCacheOrder, this`recency)
      ensures !old(isPlaying) && chunks == [] ==>
        && !isPlaying && spawned == []
        && outbox == old(outbox) + [Progress(Analyzing)] + TextNotices(text, |chunks|) + TextNotices(text, |chunks|) + [Failure(NoTextToPlay)]
        && unchanged(this`audioCacheOrder, this`recency)
      ensures !old(isPlaying) && chunks != [] ==>
        && isPlaying
        && spawned == ChunkTasks(0)
        && outbox == old(outbox) + [Progress(Analyzing)] + TextNotices(text, |chunks|)
             + [Progress(PreparingFirst)] + ChunkNotices(0) + [Status()]
        && TouchedAt(old(audioCacheOrder), old(recency), 0)
    {
      ghost var wasPlaying, order, used := isPlaying, audioCacheOrder, recency;
      Analyze();
      assert isPlaying == wasPlaying && audioCacheOrder == order && recency == used;
      ghost var analyzed := outbox;
      spawned := StartPlayback();
      if !wasPlaying && chunks != [] {
        assert analyzed + [] == analyzed;
      }
    }

    /** The first half of a `processText` message with text: announce the
        analysis and run `processText`. */
    method Analyze()
      requires Valid() && text != []
      modifies this`outbox, this`chunks, this`totalChunks, this`currentChunk
      ensures Valid()
      ensures chunks == Chunks(text, settings.chunkSize) && currentChunk == 0
      ensures outbox == old(outbox) + [Progress(Analyzing)] + TextNotices(text, |chunks|)
    {
      outbox := outbox + [Progress(Analyzing)];
      ProcessText();
    }
  }
}
