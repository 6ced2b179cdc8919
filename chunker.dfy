/**
  The chunker of the offscreen player (`splitTextIntoChunks`): the text is cut
  into sentence units by a regular expression, the trimmed units are joined
  greedily with one space up to `chunkSize` characters, and a chunk that grows
  past one and a half times `chunkSize` is broken again at word boundaries.
 */
module Chunker {
  import opened Text

  predicate IsTerminator(c: char) {
    c == '.' || c == '!' || c == '?'
  }

  predicate AllTerminators(s: string) {
    forall i :: 0 <= i < |s| ==> IsTerminator(s[i])
  }

  /** Length of the leading run of characters other than `.`, `!`, `?`. */
  function BodyLen(s: string): (n: nat)
    ensures n <= |s|
    ensures forall i :: 0 <= i < n ==> !IsTerminator(s[i])
    ensures n < |s| ==> IsTerminator(s[n])
    decreases |s|
  {
    if s == [] || IsTerminator(s[0]) then 0
    else
      var m := BodyLen(s[1..]);
      1 + m
  }

  /** Length of the leading run of `.`, `!`, `?`. */
  function MarkLen(s: string): (n: nat)
    ensures n <= |s| && AllTerminators(s[..n])
    ensures n < |s| ==> !IsTerminator(s[n])
    decreases |s|
  {
    if s == [] || !IsTerminator(s[0]) then 0
    else
      var m := MarkLen(s[1..]);
      1 + m
  }

  /** `text.match(/[^.!?]+[.!?]+|\s*[^.!?]+$/g) || []`, as a scanner. At a
      terminator neither alternative can start, so the match moves on one
      character. Elsewhere the first alternative takes the maximal body and
      the maximal run of terminators after it; when no terminator follows,
      the second alternative takes the rest of the text. */
  function Sentences(s: string): (units: seq<string>)
    ensures forall i :: 0 <= i < |units| ==> units[i] != []
    decreases |s|
  {
    if s == [] then []
    else if IsTerminator(s[0]) then Sentences(s[1..])
    else
      var b := BodyLen(s);
      if b == |s| then [s]
      else
        var k := b + MarkLen(s[b..]);
        [s[..k]] + Sentences(s[k..])
  }

  /** A unit of the regular expression: a non-empty body of non-terminators
      followed by terminators only. */
  predicate IsUnit(u: string) {
    0 < BodyLen(u) && AllTerminators(u[BodyLen(u)..])
  }

  /** Every unit matches one of the two alternatives, and only the last one
      may lack the closing terminators. */
  predicate UnitList(units: seq<string>) {
    && (forall i :: 0 <= i < |units| ==> IsUnit(units[i]))
    && (forall i :: 0 <= i < |units| - 1 ==> BodyLen(units[i]) < |units[i]|)
  }

  lemma {:induction false} SentencesAreUnits(s: string)
    ensures UnitList(Sentences(s))
    decreases |s|
  {
    if s == [] {
    } else if IsTerminator(s[0]) {
      SentencesAreUnits(s[1..]);
    } else {
      var b := BodyLen(s);
      if b == |s| {
        assert s[b..] == [];
      } else {
        var k := b + MarkLen(s[b..]);
        SentencesAreUnits(s[k..]);
        ClosedUnit(s, b, k);
        UnitsCons(s[..k], Sentences(s[k..]));
      }
    }
  }

  /** A body followed by its run of terminators is a closed unit. */
  lemma ClosedUnit(s: string, b: nat, k: nat)
    requires s != [] && !IsTerminator(s[0])
    requires b == BodyLen(s) < |s| && k == b + MarkLen(s[b..])
    ensures IsUnit(s[..k]) && BodyLen(s[..k]) < k
  {
    BodyLenPrefix(s, k);
    assert s[..k][b..] == s[b..][..MarkLen(s[b..])];
  }

  /** A closed unit in front of a list of units is a list of units. */
  lemma UnitsCons(u: string, rest: seq<string>)
    requires IsUnit(u) && BodyLen(u) < |u| && UnitList(rest)
    ensures UnitList([u] + rest)
  {
    forall i | 0 < i < |[u] + rest| ensures ([u] + rest)[i] == rest[i - 1] {
    }
  }

  /** The body of `s` is also the body of any prefix that extends past it. */
  lemma {:induction false} BodyLenPrefix(s: string, k: nat)
    requires BodyLen(s) < k <= |s|
    ensures BodyLen(s[..k]) == BodyLen(s)
    decreases |s|
  {
    if !IsTerminator(s[0]) {
      assert s[..k][1..] == s[1..][..k - 1];
      BodyLenPrefix(s[1..], k - 1);
    }
  }

  /** The units, written one after the other, give back the text without its
      leading terminators; nothing else is skipped. */
  lemma {:induction false} SentencesCover(s: string)
    ensures Concat(Sentences(s)) == s[MarkLen(s)..]
    decreases |s|
  {
    if s == [] {
    } else if IsTerminator(s[0]) {
      SentencesCover(s[1..]);
      assert s[MarkLen(s)..] == s[1..][MarkLen(s[1..])..];
    } else {
      var b := BodyLen(s);
      if b == |s| {
        assert Concat([s]) == s + Concat([]);
      } else {
        var k := b + MarkLen(s[b..]);
        var tail := Sentences(s[k..]);
        SentencesCover(s[k..]);
        assert MarkLen(s[k..]) == 0;
        assert ([s[..k]] + tail)[1..] == tail;
        assert Concat([s[..k]] + tail) == s[..k] + Concat(tail);
        assert s == s[..k] + s[k..];
      }
    }
  }

  /** The loop state of `splitTextIntoChunks`: the chunks emitted so far and
      the chunk being built (`currentChunk`, or `tempChunk` in the word loop). */
  datatype Draft = Draft(chunks: seq<string>, current: string)

  /** One pass of the word loop. */
  function WordStep(d: Draft, word: string, chunkSize: int): Draft {
    if |d.current| + |word| + 1 > chunkSize && |d.current| > 0 then
      Draft(d.chunks + [Trim(d.current)], word + " ")
    else
      Draft(d.chunks, d.current + word + " ")
  }

  /** The word loop run over `words`, starting from `d`. */
  function WordLoop(d: Draft, words: seq<string>, chunkSize: int): Draft
    decreases |words|
  {
    if words == [] then d
    else WordStep(WordLoop(d, words[..|words| - 1], chunkSize), words[|words| - 1], chunkSize)
  }

  /** The fallback for an oversized chunk: break `current` at whitespace and
      refill word by word; a leftover holding only spaces is dropped. */
  function Rebreak(chunks: seq<string>, current: string, chunkSize: int): Draft {
    var d := WordLoop(Draft(chunks, ""), Split(current), chunkSize);
    if |Trim(d.current)| > 0 then d else Draft(d.chunks, "")
  }

  /** One pass of the sentence loop. The oversize test `length > chunkSize * 1.5`
      is the integer test `2 * length > 3 * chunkSize`. */
  function SentenceStep(d: Draft, unit: string, chunkSize: int): Draft {
    var sentence := Trim(unit);
    if sentence == [] then d
    else
      var e := Place(d, sentence, chunkSize);
      if 2 * |e.current| > 3 * chunkSize then Rebreak(e.chunks, e.current, chunkSize) else e
  }

  /** A new chunk starts only when the current one is non-empty and the
      sentence would take it past `chunkSize`; otherwise the sentence is
      appended after one space. */
  function Place(d: Draft, sentence: string, chunkSize: int): Draft {
    if |d.current| + |sentence| > chunkSize && |d.current| > 0 then
      Draft(d.chunks + [Trim(d.current)], sentence)
    else
      Draft(d.chunks, d.current + (if d.current != [] then " " else "") + sentence)
  }

  /** The sentence loop run over `units` from an empty state. */
  function SentenceLoop(units: seq<string>, chunkSize: int): Draft
    decreases |units|
  {
    if units == [] then Draft([], "")
    else SentenceStep(SentenceLoop(units[..|units| - 1], chunkSize), units[|units| - 1], chunkSize)
  }

  /** The final step: a leftover with visible text becomes the last chunk. */
  function Flush(d: Draft): seq<string> {
    if |Trim(d.current)| > 0 then d.chunks + [Trim(d.current)] else d.chunks
  }

  /** What `splitTextIntoChunks(text, chunkSize)` returns. */
  function Chunks(text: string, chunkSize: int): seq<string> {
    Flush(SentenceLoop(Sentences(text), chunkSize))
  }

  /** A chunk as emitted: not empty, trimmed, and at most one and a half times
      `chunkSize` long unless it is a single word. */
  predicate GoodChunk(c: string, chunkSize: int) {
    c != [] && IsTrimmed(c) && (2 * |c| <= 3 * chunkSize || NoSpace(c))
  }

  /** A piece flushed by the word loop: not empty, trimmed, and at most
      `chunkSize` long unless it is a single over-long word. */
  predicate GoodPiece(c: string, chunkSize: int) {
    c != [] && IsTrimmed(c) && (|c| <= chunkSize || NoSpace(c))
  }

  predicate AllGood(chunks: seq<string>, chunkSize: int) {
    forall i :: 0 <= i < |chunks| ==> GoodChunk(chunks[i], chunkSize)
  }

  /** What the chunk under construction looks like between sentences. */
  predicate CurrentOk(current: string, chunkSize: int) {
    current == [] || (!IsSpace(current[0]) && (2 * |current| <= 3 * chunkSize || NoSpace(Trim(current))))
  }

  /** What `tempChunk` looks like between words. */
  predicate TempOk(temp: string, chunkSize: int) {
    temp == [] || (!IsSpace(temp[0]) && (|temp| <= chunkSize || NoSpace(Trim(temp))))
  }

  predicate GoodWords(words: seq<string>) {
    forall i :: 0 <= i < |words| ==> words[i] != [] && NoSpace(words[i])
  }

  /** The visible text held by a loop state, emitted chunks first. */
  function Content(d: Draft): string {
    NonSpace(Concat(d.chunks)) + NonSpace(d.current)
  }

  lemma TrimWordSpace(w: string)
    requires w != [] && NoSpace(w)
    ensures Trim(w + " ") == w
  {
    var t := w + " ";
    assert TrimStart(t) == t;
    assert t[..|t| - 1] == w;
    assert TrimEnd(w) == w;
    assert TrimEnd(t) == TrimEnd(w);
  }

  /** A non-empty string that does not start with whitespace trims to a
      non-empty string. */
  lemma TrimNotEmpty(s: string)
    requires s != [] && !IsSpace(s[0])
    ensures Trim(s) != []
  {
    assert !AllSpace(s);
  }

  /** Flushing `temp` emits a good piece. */
  lemma FlushTemp(temp: string, chunkSize: int)
    requires TempOk(temp, chunkSize) && |temp| > 0
    ensures GoodPiece(Trim(temp), chunkSize)
  {
    TrimNotEmpty(temp);
  }

  lemma GoodPieceIsGood(c: string, chunkSize: int)
    requires GoodPiece(c, chunkSize)
    ensures GoodChunk(c, chunkSize)
  {
  }

  /** The word loop only appends good pieces and keeps `tempChunk` in shape. */
  lemma {:induction false} WordLoopPieces(d: Draft, words: seq<string>, chunkSize: int)
    requires d.current == [] && GoodWords(words)
    ensures d.chunks <= WordLoop(d, words, chunkSize).chunks
    ensures forall i :: |d.chunks| <= i < |WordLoop(d, words, chunkSize).chunks| ==>
      GoodPiece(WordLoop(d, words, chunkSize).chunks[i], chunkSize)
    ensures TempOk(WordLoop(d, words, chunkSize).current, chunkSize)
    decreases |words|
  {
    if words != [] {
      var init := words[..|words| - 1];
      assert GoodWords(init) by {
        forall i | 0 <= i < |init| ensures init[i] != [] && NoSpace(init[i]) {
          assert init[i] == words[i];
        }
      }
      WordLoopPieces(d, init, chunkSize);
      var p := WordLoop(d, init, chunkSize);
      WordStepPieces(p, words[|words| - 1], chunkSize);
      PiecesGrow(d.chunks, p.chunks, WordStep(p, words[|words| - 1], chunkSize).chunks, chunkSize);
    }
  }

  /** One word: `tempChunk` stays in shape and a flushed piece is good. */
  lemma WordStepPieces(p: Draft, w: string, chunkSize: int)
    requires TempOk(p.current, chunkSize) && w != [] && NoSpace(w)
    ensures p.chunks <= WordStep(p, w, chunkSize).chunks
    ensures forall i :: |p.chunks| <= i < |WordStep(p, w, chunkSize).chunks| ==>
      GoodPiece(WordStep(p, w, chunkSize).chunks[i], chunkSize)
    ensures TempOk(WordStep(p, w, chunkSize).current, chunkSize)
  {
    TrimWordSpace(w);
    if |p.current| + |w| + 1 > chunkSize && |p.current| > 0 {
      FlushTemp(p.current, chunkSize);
    } else if p.current == [] {
      assert p.current + w + " " == w + " ";
    }
  }

  /** Good pieces appended in two rounds are good pieces appended once. */
  lemma PiecesGrow(a: seq<string>, b: seq<string>, c: seq<string>, chunkSize: int)
    requires a <= b <= c
    requires forall i :: |a| <= i < |b| ==> GoodPiece(b[i], chunkSize)
    requires forall i :: |b| <= i < |c| ==> GoodPiece(c[i], chunkSize)
    ensures a <= c && forall i :: |a| <= i < |c| ==> GoodPiece(c[i], chunkSize)
  {
    forall i | |a| <= i < |b| ensures c[i] == b[i] {
    }
  }

  /** The word loop keeps the visible text, in order. */
  lemma {:induction false} WordLoopContent(d: Draft, words: seq<string>, chunkSize: int)
    ensures Content(WordLoop(d, words, chunkSize)) == Content(d) + NonSpace(Concat(words))
    decreases |words|
  {
    if words == [] {
    } else {
      var init := words[..|words| - 1];
      var w := words[|words| - 1];
      WordLoopContent(d, init, chunkSize);
      InitLast(words);
      ConcatSnoc(init, w);
      NonSpaceAppend(Concat(init), w);
      WordStepContent(WordLoop(d, init, chunkSize), w, chunkSize);
      AppendAssoc(Content(d), NonSpace(Concat(init)), NonSpace(w));
    }
  }

  lemma WordStepContent(p: Draft, w: string, chunkSize: int)
    ensures Content(WordStep(p, w, chunkSize)) == Content(p) + NonSpace(w)
  {
    if |p.current| + |w| + 1 > chunkSize && |p.current| > 0 {
      ConcatSnoc(p.chunks, Trim(p.current));
      NonSpaceAppend(Concat(p.chunks), Trim(p.current));
      NonSpaceTrailingBlank(w);
    } else {
      NonSpaceTrailingBlank(p.current + w);
      NonSpaceAppend(p.current, w);
      AppendAssoc(NonSpace(Concat(p.chunks)), NonSpace(p.current), NonSpace(w));
    }
  }

  /** The fields `split(/\s+/)` makes of a trimmed, non-empty string are
      words: none is empty. */
  lemma SplitOfTrimmed(s: string)
    requires s != [] && IsTrimmed(s)
    ensures GoodWords(Split(s))
  {
    var f := Split(s);
    forall i | 0 <= i < |f| ensures f[i] != [] && NoSpace(f[i]) {
      if i == 0 {
      } else if i == |f| - 1 {
      } else {
      }
    }
  }

  /** The fallback emits only good pieces and leaves a chunk in shape. */
  lemma RebreakPieces(chunks: seq<string>, current: string, chunkSize: int)
    requires current != [] && IsTrimmed(current)
    ensures chunks <= Rebreak(chunks, current, chunkSize).chunks
    ensures forall i :: |chunks| <= i < |Rebreak(chunks, current, chunkSize).chunks| ==>
      GoodPiece(Rebreak(chunks, current, chunkSize).chunks[i], chunkSize)
    ensures CurrentOk(Rebreak(chunks, current, chunkSize).current, chunkSize)
  {
    SplitOfTrimmed(current);
    WordLoopPieces(Draft(chunks, ""), Split(current), chunkSize);
  }

  lemma RebreakContent(chunks: seq<string>, current: string, chunkSize: int)
    ensures Content(Rebreak(chunks, current, chunkSize)) == NonSpace(Concat(chunks)) + NonSpace(current)
  {
    var d := WordLoop(Draft(chunks, ""), Split(current), chunkSize);
    assert Content(d) == NonSpace(Concat(chunks)) + NonSpace(current) by {
      WordLoopContent(Draft(chunks, ""), Split(current), chunkSize);
      SplitKeepsText(current);
    }
    if |Trim(d.current)| == 0 {
      assert NonSpace(d.current) == [] by {
        assert NonSpace(Trim(d.current)) == NonSpace(d.current);
      }
    }
  }

  /** Placing a trimmed sentence keeps every emitted chunk good and leaves a
      trimmed, non-empty current chunk. */
  lemma PlaceGood(d: Draft, sentence: string, chunkSize: int)
    requires AllGood(d.chunks, chunkSize) && CurrentOk(d.current, chunkSize)
    requires sentence != [] && IsTrimmed(sentence)
    ensures AllGood(Place(d, sentence, chunkSize).chunks, chunkSize)
    ensures Place(d, sentence, chunkSize).current != [] && IsTrimmed(Place(d, sentence, chunkSize).current)
  {
    if |d.current| + |sentence| > chunkSize && |d.current| > 0 {
      TrimNotEmpty(d.current);
    }
  }

  lemma PlaceContent(d: Draft, sentence: string, chunkSize: int)
    ensures Content(Place(d, sentence, chunkSize)) == Content(d) + NonSpace(sentence)
  {
    if |d.current| + |sentence| > chunkSize && |d.current| > 0 {
      ConcatSnoc(d.chunks, Trim(d.current));
      NonSpaceAppend(Concat(d.chunks), Trim(d.current));
    } else {
      var sep: string := if d.current != [] then " " else "";
      assert NonSpace(sep) == [];
      NonSpaceAppend(d.current + sep, sentence);
      NonSpaceAppend(d.current, sep);
      AppendAssoc(NonSpace(Concat(d.chunks)), NonSpace(d.current), NonSpace(sentence));
    }
  }

  /** The fallback keeps every emitted chunk good. */
  lemma RebreakGood(e: Draft, chunkSize: int)
    requires AllGood(e.chunks, chunkSize)
    requires e.current != [] && IsTrimmed(e.current)
    ensures AllGood(Rebreak(e.chunks, e.current, chunkSize).chunks, chunkSize)
    ensures CurrentOk(Rebreak(e.chunks, e.current, chunkSize).current, chunkSize)
  {
    var r := Rebreak(e.chunks, e.current, chunkSize);
    RebreakPieces(e.chunks, e.current, chunkSize);
    forall i | 0 <= i < |r.chunks| ensures GoodChunk(r.chunks[i], chunkSize) {
      if i < |e.chunks| {
        assert r.chunks[i] == e.chunks[i];
      } else {
        GoodPieceIsGood(r.chunks[i], chunkSize);
      }
    }
  }

  /** One sentence keeps every emitted chunk good and the current chunk in
      shape. */
  lemma SentenceStepGood(d: Draft, unit: string, chunkSize: int)
    requires AllGood(d.chunks, chunkSize) && CurrentOk(d.current, chunkSize)
    ensures AllGood(SentenceStep(d, unit, chunkSize).chunks, chunkSize)
    ensures CurrentOk(SentenceStep(d, unit, chunkSize).current, chunkSize)
  {
    var sentence := Trim(unit);
    if sentence != [] {
      var e := Place(d, sentence, chunkSize);
      PlaceGood(d, sentence, chunkSize);
      if 2 * |e.current| > 3 * chunkSize {
        RebreakGood(e, chunkSize);
      }
    }
  }

  /** One sentence adds its visible text after what was there. */
  lemma SentenceStepContent(d: Draft, unit: string, chunkSize: int)
    ensures Content(SentenceStep(d, unit, chunkSize)) == Content(d) + NonSpace(unit)
  {
    var sentence := Trim(unit);
    if sentence != [] {
      var e := Place(d, sentence, chunkSize);
      PlaceContent(d, sentence, chunkSize);
      if 2 * |e.current| > 3 * chunkSize {
        RebreakContent(e.chunks, e.current, chunkSize);
      }
    } else {
      NonSpaceEmpty(unit);
    }
  }

  lemma {:induction false} SentenceLoopGood(units: seq<string>, chunkSize: int)
    ensures AllGood(SentenceLoop(units, chunkSize).chunks, chunkSize)
    ensures CurrentOk(SentenceLoop(units, chunkSize).current, chunkSize)
    decreases |units|
  {
    if units != [] {
      SentenceLoopGood(units[..|units| - 1], chunkSize);
      SentenceStepGood(SentenceLoop(units[..|units| - 1], chunkSize), units[|units| - 1], chunkSize);
    }
  }

  lemma {:induction false} SentenceLoopContent(units: seq<string>, chunkSize: int)
    ensures Content(SentenceLoop(units, chunkSize)) == NonSpace(Concat(units))
    decreases |units|
  {
    if units != [] {
      var init := units[..|units| - 1];
      var u := units[|units| - 1];
      SentenceLoopContent(init, chunkSize);
      SentenceStepContent(SentenceLoop(init, chunkSize), u, chunkSize);
      ConcatLast(units);
    }
  }

  /** The visible text of a non-empty list of strings, split off its last one. */
  lemma ConcatLast(units: seq<string>)
    requires units != []
    ensures NonSpace(Concat(units)) == NonSpace(Concat(units[..|units| - 1])) + NonSpace(units[|units| - 1])
  {
    var init := units[..|units| - 1];
    var u := units[|units| - 1];
    InitLast(units);
    ConcatSnoc(init, u);
    NonSpaceAppend(Concat(init), u);
  }

  /** Every chunk `splitTextIntoChunks` returns is non-empty, trimmed and at
      most one and a half times `chunkSize` long unless it is a single word. */
  lemma ChunksAreGood(text: string, chunkSize: int)
    ensures AllGood(Chunks(text, chunkSize), chunkSize)
  {
    var d := SentenceLoop(Sentences(text), chunkSize);
    SentenceLoopGood(Sentences(text), chunkSize);
    if |Trim(d.current)| > 0 {
      var c := Trim(d.current);
      assert GoodChunk(c, chunkSize);
      var r := d.chunks + [c];
      forall i | 0 <= i < |r| ensures GoodChunk(r[i], chunkSize) {
        if i < |d.chunks| {
          assert r[i] == d.chunks[i];
        }
      }
    }
  }

  /** The chunks hold exactly the visible characters of the text after its
      leading terminators, in the same order. */
  lemma ChunksKeepText(text: string, chunkSize: int)
    ensures NonSpace(Concat(Chunks(text, chunkSize))) == NonSpace(text[MarkLen(text)..])
  {
    var d := SentenceLoop(Sentences(text), chunkSize);
    SentenceLoopContent(Sentences(text), chunkSize);
    SentencesCover(text);
    if |Trim(d.current)| > 0 {
      ConcatSnoc(d.chunks, Trim(d.current));
      NonSpaceAppend(Concat(d.chunks), Trim(d.current));
    } else {
      assert NonSpace(d.current) == [];
    }
  }

  /** There are no chunks exactly when nothing but whitespace follows the
      leading terminators of the text (in particular for empty or blank text). */
  lemma ChunksEmpty(text: string, chunkSize: int)
    ensures Chunks(text, chunkSize) == [] <==> AllSpace(text[MarkLen(text)..])
  {
    ChunksKeepText(text, chunkSize);
    NonSpaceEmpty(text[MarkLen(text)..]);
    ChunksAreGood(text, chunkSize);
    GoodChunksVisible(Chunks(text, chunkSize), chunkSize);
  }

  /** A list of good chunks is empty exactly when it holds no visible
      character. */
  lemma GoodChunksVisible(cs: seq<string>, chunkSize: int)
    requires AllGood(cs, chunkSize)
    ensures cs == [] <==> NonSpace(Concat(cs)) == []
  {
    if cs != [] {
      assert GoodChunk(cs[0], chunkSize);
      TrimmedEmpty(cs[0]);
      NonSpaceAppend(cs[0], Concat(cs[1..]));
    }
  }

  lemma SentenceLoopSnoc(units: seq<string>, k: nat, chunkSize: int)
    requires k < |units|
    ensures SentenceLoop(units[..k + 1], chunkSize) == SentenceStep(SentenceLoop(units[..k], chunkSize), units[k], chunkSize)
  {
    assert units[..k + 1][..k] == units[..k];
  }

  lemma SentenceLoopAppend(init: seq<string>, u: string, chunkSize: int)
    ensures SentenceLoop(init + [u], chunkSize) == SentenceStep(SentenceLoop(init, chunkSize), u, chunkSize)
  {
    assert (init + [u])[..|init|] == init;
  }

  lemma WordLoopSnoc(d: Draft, words: seq<string>, j: nat, chunkSize: int)
    requires j < |words|
    ensures WordLoop(d, words[..j + 1], chunkSize) == WordStep(WordLoop(d, words[..j], chunkSize), words[j], chunkSize)
  {
    assert words[..j + 1][..j] == words[..j];
  }

  /** The word-boundary fallback of `splitTextIntoChunks` (the block run when
      the current chunk is over one and a half times `chunkSize`). */
  method BreakAtWords(chunks: seq<string>, currentChunk: string, chunkSize: int)
    returns (chunks': seq<string>, currentChunk': string)
    ensures Draft(chunks', currentChunk') == Rebreak(chunks, currentChunk, chunkSize)
  {
    var tempChunk;
    chunks', tempChunk := FillWords(chunks, Split(currentChunk), chunkSize);
    if |Trim(tempChunk)| > 0 {
      currentChunk' := tempChunk;
    } else {
      currentChunk' := "";
    }
  }

  /** The word loop of the fallback: each word goes after `tempChunk` and a
      blank, and `tempChunk` is flushed first when the word would take it
      past `chunkSize`. */
  method FillWords(chunks: seq<string>, words: seq<string>, chunkSize: int)
    returns (chunks': seq<string>, tempChunk: string)
    ensures Draft(chunks', tempChunk) == WordLoop(Draft(chunks, ""), words, chunkSize)
  {
    chunks' := chunks;
    tempChunk := "";
    var j := 0;
    while j < |words|
      invariant 0 <= j <= |words|
      invariant Draft(chunks', tempChunk) == WordLoop(Draft(chunks, ""), words[..j], chunkSize)
    {
      var word := words[j];
      WordLoopSnoc(Draft(chunks, ""), words, j, chunkSize);
      if |tempChunk| + |word| + 1 > chunkSize && |tempChunk| > 0 {
        chunks' := chunks' + [Trim(tempChunk)];
        tempChunk := word + " ";
      } else {
        tempChunk := tempChunk + word + " ";
      }
      j := j + 1;
    }
    assert words[..j] == words;
  }

  /** `splitTextIntoChunks`: the loop computes `Chunks`, whose shape and
      content `ChunksAreGood`, `ChunksKeepText` and `ChunksEmpty` state. */
  method SplitTextIntoChunks(text: string, chunkSize: int) returns (chunks: seq<string>)
    ensures chunks == Chunks(text, chunkSize)
  {
    var sentences := Sentences(text);
    chunks := [];
    var currentChunk: string := "";
    var k := 0;
    while k < |sentences|
      invariant 0 <= k <= |sentences|
      invariant Draft(chunks, currentChunk) == SentenceLoop(sentences[..k], chunkSize)
    {
      SentenceLoopSnoc(sentences, k, chunkSize);
      var sentence := Trim(sentences[k]);
      if sentence != [] {
        if |currentChunk| + |sentence| > chunkSize && |currentChunk| > 0 {
          chunks := chunks + [Trim(currentChunk)];
          currentChunk := sentence;
        } else {
          currentChunk := currentChunk + (if currentChunk != [] then " " else "") + sentence;
        }
        if 2 * |currentChunk| > 3 * chunkSize {
          chunks, currentChunk := BreakAtWords(chunks, currentChunk, chunkSize);
        }
      }
      k := k + 1;
    }
    assert sentences[..k] == sentences;
    if |Trim(currentChunk)| > 0 {
      chunks := chunks + [Trim(currentChunk)];
    }
  }

  /** One character and one terminator, followed by a non-terminator or by
      nothing, make a unit of their own. */
  lemma LeadingUnit(s: string)
    requires |s| >= 2 && !IsTerminator(s[0]) && IsTerminator(s[1])
    requires |s| == 2 || !IsTerminator(s[2])
    ensures Sentences(s) == [s[..2]] + Sentences(s[2..])
  {
    assert BodyLen(s[1..]) == 0;
    assert BodyLen(s) == 1;
    assert MarkLen(s[1..][1..]) == 0;
    assert MarkLen(s[1..]) == 1;
  }

  /** A character that is neither a terminator nor whitespace. */
  predicate Plain(c: char) {
    !IsTerminator(c) && !IsSpace(c)
  }

  lemma ExampleUnitsZ(z: char)
    requires Plain(z)
    ensures Sentences([z, '.']) == [[z, '.']]
  {
    LeadingUnit([z, '.']);
    assert [z, '.'][..2] == [z, '.'] && [z, '.'][2..] == [];
  }

  lemma ExampleUnitsYZ(y: char, z: char)
    requires Plain(y) && Plain(z)
    ensures Sentences([y, '.', z, '.']) == [[y, '.'], [z, '.']]
  {
    var t := [y, '.', z, '.'];
    LeadingUnit(t);
    assert t[..2] == [y, '.'] && t[2..] == [z, '.'];
    ExampleUnitsZ(z);
  }

  /** Three one-character sentences make three units. */
  lemma ExampleUnits(x: char, y: char, z: char)
    requires Plain(x) && Plain(y) && Plain(z)
    ensures Sentences([x, '.', y, '.', z, '.']) == [[x, '.'], [y, '.'], [z, '.']]
  {
    var t := [x, '.', y, '.', z, '.'];
    LeadingUnit(t);
    assert t[..2] == [x, '.'] && t[2..] == [y, '.', z, '.'];
    ExampleUnitsYZ(y, z);
  }

  /** The first sentence starts the current chunk. */
  lemma ExampleStep1(x: char)
    requires Plain(x)
    ensures SentenceStep(Draft([], ""), [x, '.'], 6) == Draft([], [x, '.'])
  {
    TrimOfTrimmed([x, '.']);
  }

  /** The second sentence joins it after one space: five characters. */
  lemma ExampleStep2(x: char, y: char)
    requires Plain(x) && Plain(y)
    ensures SentenceStep(Draft([], [x, '.']), [y, '.'], 6) == Draft([], [x, '.', ' ', y, '.'])
  {
    TrimOfTrimmed([y, '.']);
    assert [x, '.'] + " " + [y, '.'] == [x, '.', ' ', y, '.'];
  }

  /** The third sentence does not fit: five plus two is over six. */
  lemma ExampleStep3(x: char, y: char, z: char)
    requires Plain(x) && Plain(y) && Plain(z)
    ensures SentenceStep(Draft([], [x, '.', ' ', y, '.']), [z, '.'], 6)
      == Draft([[x, '.', ' ', y, '.']], [z, '.'])
  {
    TrimOfTrimmed([z, '.']);
    TrimOfTrimmed([x, '.', ' ', y, '.']);
  }

  lemma ExampleLoop1(x: char)
    requires Plain(x)
    ensures SentenceLoop([[x, '.']], 6) == Draft([], [x, '.'])
  {
    SentenceLoopAppend([], [x, '.'], 6);
    assert [] + [[x, '.']] == [[x, '.']];
    ExampleStep1(x);
  }

  lemma ExampleLoop2(x: char, y: char)
    requires Plain(x) && Plain(y)
    ensures SentenceLoop([[x, '.'], [y, '.']], 6) == Draft([], [x, '.', ' ', y, '.'])
  {
    SentenceLoopAppend([[x, '.']], [y, '.'], 6);
    assert [[x, '.']] + [[y, '.']] == [[x, '.'], [y, '.']];
    ExampleLoop1(x);
    ExampleStep2(x, y);
  }

  lemma ExampleLoop(x: char, y: char, z: char)
    requires Plain(x) && Plain(y) && Plain(z)
    ensures SentenceLoop([[x, '.'], [y, '.'], [z, '.']], 6) == Draft([[x, '.', ' ', y, '.']], [z, '.'])
  {
    SentenceLoopAppend([[x, '.'], [y, '.']], [z, '.'], 6);
    assert [[x, '.'], [y, '.']] + [[z, '.']] == [[x, '.'], [y, '.'], [z, '.']];
    ExampleLoop2(x, y);
    ExampleStep3(x, y, z);
  }

  /** A text no longer than `chunkSize` can still come back as several chunks:
      the space that joins two sentences counts toward the limit test. */
  lemma ShortTextTwoChunks(x: char, y: char, z: char)
    requires Plain(x) && Plain(y) && Plain(z)
    ensures |[x, '.', y, '.', z, '.']| <= 6
    ensures Chunks([x, '.', y, '.', z, '.'], 6) == [[x, '.', ' ', y, '.'], [z, '.']]
  {
    ExampleUnits(x, y, z);
    ExampleLoop(x, y, z);
    ExampleFlush([x, '.', ' ', y, '.'], [z, '.']);
  }

  /** The leftover of the example is a chunk of its own. */
  lemma ExampleFlush(first: string, last: string)
    requires last != [] && IsTrimmed(last)
    ensures Flush(Draft([first], last)) == [first, last]
  {
    TrimOfTrimmed(last);
  }
}
