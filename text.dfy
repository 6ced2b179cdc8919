/**
  String primitives of JavaScript that the player and the background script
  rely on: the whitespace class `\s`, `String.prototype.trim`,
  `s.split(/\s+/)`, and the `countWords` helper built on them.
 */
module Text {

  /** JavaScript's whitespace class: what `\s` matches and what `trim`
      removes (the WhiteSpace and LineTerminator code points). */
  predicate IsSpace(c: char) {
    var n := c as int;
    (9 <= n <= 13) || n == 0x20 || n == 0xA0 || n == 0x1680
    || (0x2000 <= n <= 0x200A) || n == 0x2028 || n == 0x2029
    || n == 0x202F || n == 0x205F || n == 0x3000 || n == 0xFEFF
  }

  predicate AllSpace(s: string) {
    forall i :: 0 <= i < |s| ==> IsSpace(s[i])
  }

  predicate NoSpace(s: string) {
    forall i :: 0 <= i < |s| ==> !IsSpace(s[i])
  }

  /** No whitespace at either end: the shape `trim` leaves behind. */
  predicate IsTrimmed(s: string) {
    s == [] || (!IsSpace(s[0]) && !IsSpace(s[|s| - 1]))
  }

  /** The non-whitespace characters of `s`, in order. */
  function NonSpace(s: string): string {
    if s == [] then [] else (if IsSpace(s[0]) then [] else [s[0]]) + NonSpace(s[1..])
  }

  /** The strings of `ss` written one after the other. */
  function Concat(ss: seq<string>): string {
    if ss == [] then [] else ss[0] + Concat(ss[1..])
  }

  lemma {:induction false} NonSpaceAppend(a: string, b: string)
    ensures NonSpace(a + b) == NonSpace(a) + NonSpace(b)
    decreases |a|
  {
    if a != [] {
      AppendSlices(a, b, 1);
      NonSpaceAppend(a[1..], b);
    } else {
      assert a + b == b;
    }
  }

  /** A blank written after `w` adds no visible character. */
  lemma NonSpaceTrailingBlank(w: string)
    ensures NonSpace(w + " ") == NonSpace(w)
  {
    NonSpaceAppend(w, " ");
  }

  lemma {:induction false} NonSpaceEmpty(s: string)
    ensures NonSpace(s) == [] <==> AllSpace(s)
    decreases |s|
  {
    if s != [] {
      NonSpaceEmpty(s[1..]);
      if AllSpace(s[1..]) && IsSpace(s[0]) {
        forall i | 0 <= i < |s| ensures IsSpace(s[i]) {
          if i > 0 { assert s[i] == s[1..][i - 1]; }
        }
      }
      if AllSpace(s) {
        assert forall i :: 0 <= i < |s[1..]| ==> s[1..][i] == s[i + 1];
      }
    }
  }

  lemma {:induction false} ConcatSnoc(ss: seq<string>, x: string)
    ensures Concat(ss + [x]) == Concat(ss) + x
    decreases |ss|
  {
    if ss == [] {
      assert [] + [x] == [x];
    } else {
      assert (ss + [x])[1..] == ss[1..] + [x];
      ConcatSnoc(ss[1..], x);
    }
  }

  /** A sequence is its prefix followed by the matching suffix. */
  lemma Halves<T>(s: seq<T>, i: nat)
    requires i <= |s|
    ensures s == s[..i] + s[i..]
  {
  }

  /** A non-empty sequence is its front followed by its last element. */
  lemma InitLast<T>(s: seq<T>)
    requires s != []
    ensures s == s[..|s| - 1] + [s[|s| - 1]]
  {
  }

  lemma AppendAssoc<T>(a: seq<T>, b: seq<T>, c: seq<T>)
    ensures (a + b) + c == a + (b + c)
  {
  }

  /** Slicing `a + b` inside `a` slices `a` alone. */
  lemma AppendSlices<T>(a: seq<T>, b: seq<T>, n: nat)
    requires n <= |a|
    ensures (a + b)[..n] == a[..n] && (a + b)[n..] == a[n..] + b
  {
  }

  /** Number of whitespace characters at the front of `s`. */
  function LeadingSpaces(s: string): (n: nat)
    ensures n <= |s| && AllSpace(s[..n])
    ensures n < |s| ==> !IsSpace(s[n])
    decreases |s|
  {
    if s == [] || !IsSpace(s[0]) then 0
    else
      var m := LeadingSpaces(s[1..]);
      1 + m
  }

  /** `String.prototype.trimStart`: `s` without its leading whitespace. */
  function TrimStart(s: string): (r: string)
    ensures |r| <= |s| && (r == [] || !IsSpace(r[0]))
    ensures NonSpace(r) == NonSpace(s)
    decreases |s|
  {
    if s != [] && IsSpace(s[0]) then
      assert NonSpace(s) == NonSpace(s[1..]);
      TrimStart(s[1..])
    else s
  }

  /** `String.prototype.trimEnd`: `s` without its trailing whitespace. */
  function TrimEnd(s: string): (r: string)
    ensures |r| <= |s| && (r == [] || !IsSpace(r[|r| - 1]))
    ensures r != [] ==> r[0] == s[0]
    ensures NonSpace(r) == NonSpace(s)
    decreases |s|
  {
    if s != [] && IsSpace(s[|s| - 1]) then
      InitLast(s);
      NonSpaceAroundSpaces([s[|s| - 1]], s[..|s| - 1]);
      TrimEnd(s[..|s| - 1])
    else s
  }

  /** `String.prototype.trim`: `s` without its leading and trailing
      whitespace. It removes nothing else (`TrimStripsEnds`) and leaves a
      trimmed string, empty exactly when `s` was all whitespace. */
  function Trim(s: string): (r: string)
    ensures IsTrimmed(r)
    ensures |r| <= |s|
    ensures NonSpace(r) == NonSpace(s)
    ensures r == [] <==> AllSpace(s)
  {
    var r := TrimEnd(TrimStart(s));
    TrimmedEmpty(r);
    NonSpaceEmpty(s);
    r
  }

  /** `trimStart` drops only whitespace, all of it at the front. */
  lemma {:induction false} TrimStartSplit(s: string) returns (front: string)
    ensures AllSpace(front) && s == front + TrimStart(s)
    decreases |s|
  {
    if s != [] && IsSpace(s[0]) {
      var rest := TrimStartSplit(s[1..]);
      front := [s[0]] + rest;
      assert s == [s[0]] + s[1..];
    } else {
      front := [];
      assert s == [] + s;
    }
  }

  /** `trimEnd` drops only whitespace, all of it at the back. */
  lemma {:induction false} TrimEndSplit(s: string) returns (back: string)
    ensures AllSpace(back) && s == TrimEnd(s) + back
    decreases |s|
  {
    if s != [] && IsSpace(s[|s| - 1]) {
      var rest := TrimEndSplit(s[..|s| - 1]);
      back := rest + [s[|s| - 1]];
      InitLast(s);
      AppendAssoc(TrimEnd(s[..|s| - 1]), rest, [s[|s| - 1]]);
    } else {
      back := [];
      assert s == s + [];
    }
  }

  /** `trim` leaves `s` as whitespace, the result, whitespace. */
  lemma TrimSplit(s: string) returns (front: string, back: string)
    ensures AllSpace(front) && AllSpace(back) && s == front + (Trim(s) + back)
  {
    front := TrimStartSplit(s);
    back := TrimEndSplit(TrimStart(s));
  }

  /** `trim` takes whitespace off the two ends and nothing else: its result
      is a slice of `s` with only whitespace before and after it. */
  lemma TrimStripsEnds(s: string)
    ensures StripsEnds(s, Trim(s))
  {
    var front, back := TrimSplit(s);
    StripsAround(front, Trim(s), back);
  }

  /** Whitespace before and after `r` is what `StripsEnds` allows. */
  lemma StripsAround(front: string, r: string, back: string)
    requires AllSpace(front) && AllSpace(back)
    ensures StripsEnds(front + (r + back), r)
  {
    var s := front + (r + back);
    assert s[..|front|] == front;
    assert s[|front|..|front| + |r|] == r;
    assert s[|front| + |r|..] == back;
  }

  /** `r` is a slice of `s` with only whitespace before and after it. */
  predicate StripsEnds(s: string, r: string) {
    exists i, j :: 0 <= i <= j <= |s| && r == s[i..j] && AllSpace(s[..i]) && AllSpace(s[j..])
  }

  /** Whitespace glued to either end of `q` adds no visible character. */
  lemma NonSpaceAroundSpaces(p: string, q: string)
    requires AllSpace(p)
    ensures NonSpace(p + q) == NonSpace(q) && NonSpace(q + p) == NonSpace(q)
  {
    NonSpaceAppend(p, q);
    NonSpaceAppend(q, p);
    NonSpaceEmpty(p);
  }

  /** A trimmed string is empty exactly when it has no visible character. */
  lemma TrimmedEmpty(r: string)
    requires IsTrimmed(r)
    ensures r == [] <==> NonSpace(r) == []
  {
    NonSpaceEmpty(r);
  }

  lemma TrimOfTrimmed(s: string)
    requires IsTrimmed(s)
    ensures Trim(s) == s
  {
  }

  /** Length of the leading run of non-whitespace characters of `s`. */
  function WordLen(s: string): (n: nat)
    ensures n <= |s| && NoSpace(s[..n])
    ensures n < |s| ==> IsSpace(s[n])
    decreases |s|
  {
    if s == [] || IsSpace(s[0]) then 0
    else
      var m := WordLen(s[1..]);
      1 + m
  }

  /** What `s.split(/\s+/)` promises about the fields of `s`: there is at
      least one, none holds whitespace, only the first and the last may be
      empty, the first (last) is empty exactly when `s` starts (ends) with
      whitespace, and the empty string yields one empty field. */
  predicate FieldsOf(s: string, fields: seq<string>) {
    && |fields| >= 1
    && (forall i :: 0 <= i < |fields| ==> NoSpace(fields[i]))
    && (forall i :: 0 < i < |fields| - 1 ==> fields[i] != [])
    && (fields[0] == [] <==> s == [] || IsSpace(s[0]))
    && (fields[|fields| - 1] == [] <==> s == [] || IsSpace(s[|s| - 1]))
    && (s == [] ==> fields == [[]])
  }

  /** `s.split(/\s+/)`: the fields between the maximal runs of whitespace. */
  function Split(s: string): (fields: seq<string>)
    ensures FieldsOf(s, fields)
    decreases |s|
  {
    var n := WordLen(s);
    if n == |s| then
      assert s == s[..n];
      [s]
    else
      var m := LeadingSpaces(s[n..]);
      var tail := Split(s[n..][m..]);
      SplitCons(s, n, m, tail);
      [s[..n]] + tail
  }

  /** A word, a run of whitespace, then the fields of what follows: the
      fields of the whole string. */
  lemma SplitCons(s: string, n: nat, m: nat, tail: seq<string>)
    requires n < |s| && NoSpace(s[..n]) && IsSpace(s[n])
    requires m <= |s[n..]| && AllSpace(s[n..][..m]) && (m < |s[n..]| ==> !IsSpace(s[n..][m]))
    requires FieldsOf(s[n..][m..], tail)
    ensures FieldsOf(s, [s[..n]] + tail)
  {
    SplitConsFirst(s, n);
    SplitConsNoSpace(s[..n], tail);
    SplitConsMiddle(s[..n], s[n..][m..], tail);
    SplitConsLast(s, n, m, tail);
  }

  lemma SplitConsFirst(s: string, n: nat)
    requires n < |s| && NoSpace(s[..n]) && IsSpace(s[n])
    ensures s[..n] == [] <==> IsSpace(s[0])
  {
    if n > 0 {
      assert s[..n][0] == s[0];
    }
  }

  lemma SplitConsNoSpace(w: string, tail: seq<string>)
    requires NoSpace(w)
    requires forall i :: 0 <= i < |tail| ==> NoSpace(tail[i])
    ensures forall i :: 0 <= i < |[w] + tail| ==> NoSpace(([w] + tail)[i])
  {
    var f := [w] + tail;
    forall i | 0 < i < |f| ensures NoSpace(f[i]) {
      assert f[i] == tail[i - 1];
    }
  }

  lemma SplitConsMiddle(w: string, after: string, tail: seq<string>)
    requires after == [] || !IsSpace(after[0])
    requires FieldsOf(after, tail)
    ensures forall i :: 0 < i < |[w] + tail| - 1 ==> ([w] + tail)[i] != []
  {
    var f := [w] + tail;
    forall i | 0 < i < |f| - 1 ensures f[i] != [] {
      assert f[i] == tail[i - 1];
    }
  }

  lemma SplitConsLast(s: string, n: nat, m: nat, tail: seq<string>)
    requires n < |s|
    requires m <= |s[n..]| && AllSpace(s[n..][..m])
    requires FieldsOf(s[n..][m..], tail)
    ensures ([s[..n]] + tail)[|tail|] == [] <==> IsSpace(s[|s| - 1])
  {
    assert ([s[..n]] + tail)[|tail|] == tail[|tail| - 1];
    var rest := s[n..];
    var after := rest[m..];
    if after == [] {
      assert s[|s| - 1] == rest[..m][m - 1];
    } else {
      assert s[|s| - 1] == after[|after| - 1];
    }
  }

  lemma {:induction false} SplitKeepsText(s: string)
    ensures NonSpace(Concat(Split(s))) == NonSpace(s)
    decreases |s|
  {
    var n := WordLen(s);
    if n == |s| {
      assert Split(s) == [s] by {
        assert s == s[..n];
      }
      assert Concat([s]) == s + Concat([]);
      assert s + [] == s;
    } else {
      var rest := s[n..];
      var m := LeadingSpaces(rest);
      SplitKeepsText(rest[m..]);
      NonSpaceAroundSpaces(rest[..m], rest[m..]);
      SplitTailKeepsText(s[..n], rest[..m], rest[m..], Split(rest[m..]));
      Halves(s, n);
      Halves(rest, m);
    }
  }

  lemma SplitTailKeepsText(w: string, gap: string, after: string, tail: seq<string>)
    requires NonSpace(Concat(tail)) == NonSpace(after)
    requires NonSpace(gap + after) == NonSpace(after)
    ensures NonSpace(Concat([w] + tail)) == NonSpace(w + (gap + after))
  {
    assert ([w] + tail)[1..] == tail;
    NonSpaceAppend(w, Concat(tail));
    NonSpaceAppend(w, gap + after);
  }

  /** The words of `s`: its maximal runs of non-whitespace characters. */
  function Words(s: string): (ws: seq<string>)
    ensures forall i :: 0 <= i < |ws| ==> ws[i] != [] && NoSpace(ws[i])
    decreases |s|
  {
    if s == [] then []
    else if IsSpace(s[0]) then Words(s[1..])
    else
      var n := WordLen(s);
      [s[..n]] + Words(s[n..])
  }

  lemma {:induction false} WordLenAppend(a: string, b: string)
    requires WordLen(a) < |a| || b == [] || IsSpace(b[0])
    ensures WordLen(a + b) == WordLen(a)
    decreases |a|
  {
    if a == [] {
      assert a + b == b;
    } else if !IsSpace(a[0]) {
      AppendSlices(a, b, 1);
      WordLenAppend(a[1..], b);
    }
  }

  lemma {:induction false} WordsOfSpaces(s: string)
    requires AllSpace(s)
    ensures Words(s) == []
    decreases |s|
  {
    if s != [] {
      WordsOfSpaces(s[1..]);
    }
  }

  /** Gluing two strings at whitespace neither merges nor splits words. */
  lemma {:induction false} WordsAppend(a: string, b: string)
    requires a == [] || b == [] || IsSpace(a[|a| - 1]) || IsSpace(b[0])
    ensures Words(a + b) == Words(a) + Words(b)
    decreases |a|
  {
    if a == [] {
      assert a + b == b;
    } else if IsSpace(a[0]) {
      AppendSlices(a, b, 1);
      WordsAppend(a[1..], b);
    } else {
      var n := WordLen(a);
      WordThenAppend(a, b, n);
      WordLenAppend(a, b);
      WordsAppend(a[n..], b);
      WordsAfterWord(a, b, n);
    }
  }

  /** Cutting `a + b` after the first word of `a`: the word is the same and
      what follows still meets `b` at whitespace. */
  lemma WordThenAppend(a: string, b: string, n: nat)
    requires a != [] && n <= |a| && NoSpace(a[..n]) && (n < |a| ==> IsSpace(a[n]))
    requires b == [] || IsSpace(a[|a| - 1]) || IsSpace(b[0])
    ensures n < |a| || b == [] || IsSpace(b[0])
    ensures (a + b)[..n] == a[..n] && (a + b)[n..] == a[n..] + b
    ensures a[n..] == [] || b == [] || IsSpace(a[n..][|a[n..]| - 1]) || IsSpace(b[0])
  {
    if n == |a| && b != [] {
      assert a[..n][n - 1] == a[|a| - 1];
    }
    AppendSlices(a, b, n);
    if n < |a| {
      assert a[n..][|a| - n - 1] == a[|a| - 1];
    }
  }

  /** The words of a word followed by the rest, given those of the rest. */
  lemma WordsAfterWord(a: string, b: string, n: nat)
    requires a != [] && !IsSpace(a[0]) && n == WordLen(a) && WordLen(a + b) == n
    requires n <= |a| && (a + b)[..n] == a[..n] && (a + b)[n..] == a[n..] + b
    requires Words(a[n..] + b) == Words(a[n..]) + Words(b)
    ensures Words(a + b) == Words(a) + Words(b)
  {
    assert Words(a + b) == [a[..n]] + Words(a[n..] + b);
    assert Words(a) == [a[..n]] + Words(a[n..]);
  }

  /** `words.filter(word => word.length > 0)`. */
  function NonEmpty(fields: seq<string>): seq<string> {
    if fields == [] then []
    else (if fields[0] == [] then [] else [fields[0]]) + NonEmpty(fields[1..])
  }

  lemma {:induction false} NonEmptyAppend(a: seq<string>, b: seq<string>)
    ensures NonEmpty(a + b) == NonEmpty(a) + NonEmpty(b)
    decreases |a|
  {
    if a == [] {
      assert a + b == b;
    } else {
      AppendSlices(a, b, 1);
      NonEmptyAppend(a[1..], b);
    }
  }

  /** The non-empty fields of `s.split(/\s+/)` are exactly the words of `s`. */
  lemma {:induction false} SplitFieldsAreWords(s: string)
    ensures NonEmpty(Split(s)) == Words(s)
    decreases |s|
  {
    var n := WordLen(s);
    if n == |s| {
      assert s == s[..n];
      if s != [] {
        assert s[n..] == [];
      }
    } else {
      var rest := s[n..];
      var m := LeadingSpaces(rest);
      SplitFieldsAreWords(rest[m..]);
      NonEmptyAppend([s[..n]], Split(rest[m..]));
      assert Words(rest) == Words(rest[m..]) by {
        Halves(rest, m);
        WordsAroundSpaces(rest[..m], rest[m..]);
      }
      if n == 0 {
        assert rest == s;
      }
    }
  }

  lemma WordsOfTrim(s: string)
    ensures Words(Trim(s)) == Words(s)
  {
    var front, back := TrimSplit(s);
    WordsAroundSpaces(front, Trim(s) + back);
    WordsAroundSpaces(back, Trim(s));
  }

  /** Whitespace glued to either end of `q` adds no word. */
  lemma WordsAroundSpaces(p: string, q: string)
    requires AllSpace(p)
    ensures Words(p + q) == Words(q) && Words(q + p) == Words(q)
  {
    WordsOfSpaces(p);
    WordsAppend(p, q);
    WordsAppend(q, p);
  }

  lemma {:induction false} WordsEmpty(s: string)
    ensures Words(s) == [] <==> AllSpace(s)
    decreases |s|
  {
    if s != [] {
      if IsSpace(s[0]) {
        WordsEmpty(s[1..]);
        if AllSpace(s[1..]) {
          forall i | 0 <= i < |s| ensures IsSpace(s[i]) {
            if i > 0 { assert s[i] == s[1..][i - 1]; }
          }
        }
        if AllSpace(s) {
          assert forall i :: 0 <= i < |s[1..]| ==> s[1..][i] == s[i + 1];
        }
      }
    }
  }

  /** `countWords` (offscreen.js and background.js carry the same code):
      0 for the empty string, otherwise the number of non-empty fields of
      the trimmed text split on whitespace, which is the number of words. */
  function CountWords(text: string): (n: nat)
    ensures n == |Words(text)|
    ensures n == 0 <==> AllSpace(text)
  {
    if text == [] then 0
    else
      SplitFieldsAreWords(Trim(text));
      WordsOfTrim(text);
      WordsEmpty(text);
      |NonEmpty(Split(Trim(text)))|
  }
}
