/**
 * The pieces of Python's `str` behaviour that the log tools rely on:
 * the character classes behind `\d`, `\s`, `[0-9A-Fa-f]` and `str.isdigit`,
 * clamped slicing `s[lo:hi]`, `s.split()`, `s.split(sep)` and `sep.join(parts)`.
 * Only the ASCII part of each character class is modelled.
 */
module PyText {

  predicate IsDigit(c: char) { '0' <= c <= '9' }

  predicate IsHexDigit(c: char) { IsDigit(c) || 'a' <= c <= 'f' || 'A' <= c <= 'F' }

  /** ASCII whitespace as `str.isspace` and the regex class `\s` see it. */
  predicate IsSpace(c: char) { c == ' ' || '\t' <= c <= '\r' || '\U{1C}' <= c <= '\U{1F}' }

  predicate AllHexDigits(s: string) { forall k | 0 <= k < |s| :: IsHexDigit(s[k]) }

  /** Every character of `s` is in the class `p`. */
  predicate All(s: string, p: char -> bool) { forall k | 0 <= k < |s| :: p(s[k]) }

  predicate NoSpace(s: string) { forall k | 0 <= k < |s| :: !IsSpace(s[k]) }

  /** Python's `s[lo:hi]` for non-negative bounds: clamped to the string, never fails. */
  function Slice(s: string, lo: nat, hi: nat): (r: string)
    ensures |r| <= |s| && (lo < hi <= |s| ==> |r| == hi - lo)
    ensures |r| == if lo < hi && lo < |s| then (if hi < |s| then hi else |s|) - lo else 0
    ensures forall k | 0 <= k < |r| :: lo + k < |s| && r[k] == s[lo + k]
  {
    if |s| <= lo || hi <= lo then [] else s[lo .. if hi < |s| then hi else |s|]
  }

  /**
   * The longest prefix of `s` whose characters all satisfy `p`, and what follows it:
   * the greedy behaviour of a regex `[...]*` or of scanning to a separator.
   */
  function Span(s: string, p: char -> bool): (r: (string, string))
    ensures r.0 + r.1 == s
    ensures forall k | 0 <= k < |r.0| :: p(r.0[k])
    ensures r.1 == [] || !p(r.1[0])
  {
    if s == [] || !p(s[0]) then ([], s)
    else
      var (run, rest) := Span(s[1..], p);
      var run' := [s[0]] + run;
      assert run' + rest == s by {
        assert [s[0]] + s[1..] == s;
      }
      assert forall k | 1 <= k < |run'| :: run'[k] == run[k - 1];
      (run', rest)
  }

  /** The decomposition that `Span` returns is the only one with its two properties. */
  lemma {:induction false} SpanOfRun(run: string, rest: string, p: char -> bool)
    requires forall k | 0 <= k < |run| :: p(run[k])
    requires rest == [] || !p(rest[0])
    ensures Span(run + rest, p) == (run, rest)
  {
    if run == [] {
      assert run + rest == rest;
    } else {
      assert (run + rest)[0] == run[0];
      assert (run + rest)[1..] == run[1..] + rest;
      SpanOfRun(run[1..], rest, p);
      assert [run[0]] + run[1..] == run;
    }
  }

  /** Python's `s.split()`: the maximal runs of non-whitespace characters, in order. */
  function Words(s: string): (ws: seq<string>)
    ensures forall i | 0 <= i < |ws| :: ws[i] != [] && NoSpace(ws[i])
    decreases |s|
  {
    if s == [] then []
    else if IsSpace(s[0]) then Words(s[1..])
    else
      var (w, rest) := Span(s, c => !IsSpace(c));
      [w] + Words(rest)
  }

  /** Python's `sep.join(parts)` for a one-character separator. */
  function Join(parts: seq<string>, sep: char): (s: string)
  {
    if |parts| <= 1 then (if parts == [] then [] else parts[0])
    else parts[0] + [sep] + Join(parts[1..], sep)
  }

  /** Python's `s.split(sep)` for a one-character separator: empty fields are kept. */
  function Split(s: string, sep: char): (parts: seq<string>)
    ensures |parts| >= 1
    ensures forall i | 0 <= i < |parts| :: sep !in parts[i]
    decreases |s|
  {
    var (head, rest) := Span(s, c => c != sep);
    if rest == [] then [head] else [head] + Split(rest[1..], sep)
  }

  /** `sep.join(s.split(sep)) == s`: splitting loses nothing. */
  lemma {:induction false} JoinSplit(s: string, sep: char)
    ensures Join(Split(s, sep), sep) == s
    decreases |s|
  {
    var (head, rest) := Span(s, c => c != sep);
    if rest != [] {
      assert rest[0] == sep;
      JoinSplit(rest[1..], sep);
      var tail := Split(rest[1..], sep);
      assert Split(s, sep) == [head] + tail;
      assert ([head] + tail)[1..] == tail;
      if |tail| == 1 {
        assert Join(tail, sep) == tail[0];
      }
      assert [sep] + rest[1..] == rest;
    }
  }

  /** `s.split(sep)` undoes `sep.join(parts)` when no part contains the separator. */
  lemma {:induction false} SplitJoin(parts: seq<string>, sep: char)
    requires parts != []
    requires forall i | 0 <= i < |parts| :: sep !in parts[i]
    ensures Split(Join(parts, sep), sep) == parts
  {
    var p0 := parts[0];
    assert forall k | 0 <= k < |p0| :: p0[k] != sep;
    if |parts| == 1 {
      SpanOfRun(p0, [], c => c != sep);
      assert p0 + [] == p0;
    } else {
      var tail := Join(parts[1..], sep);
      assert Join(parts, sep) == p0 + ([sep] + tail);
      SpanOfRun(p0, [sep] + tail, c => c != sep);
      assert ([sep] + tail)[1..] == tail;
      SplitJoin(parts[1..], sep);
      assert [p0] + parts[1..] == parts;
    }
  }

  /** A word followed by a whitespace character: `split()` yields the word and then the words of the rest. */
  lemma WordsOfWordThenSpace(w: string, c: char, tail: string)
    requires w != [] && NoSpace(w) && IsSpace(c)
    ensures Words(w + [c] + tail) == [w] + Words(tail)
  {
    var s := w + [c] + tail;
    assert s == w + ([c] + tail);
    SpanOfRun(w, [c] + tail, c => !IsSpace(c));
    assert ([c] + tail)[1..] == tail;
  }

  /** Leading whitespace is skipped. */
  lemma {:induction false} WordsAfterSpaces(gap: string, t: string)
    requires All(gap, IsSpace)
    ensures Words(gap + t) == Words(t)
  {
    if gap != [] {
      assert (gap + t)[1..] == gap[1..] + t;
      WordsAfterSpaces(gap[1..], t);
    } else {
      assert gap + t == t;
    }
  }

  /** A string of whitespace has no words. */
  lemma AllSpacesNoWords(gap: string)
    requires All(gap, IsSpace)
    ensures Words(gap) == []
  {
    WordsAfterSpaces(gap, []);
    assert gap + [] == gap;
  }

  /** Trailing whitespace, such as a line ending, changes nothing. */
  lemma {:induction false} WordsBeforeSpaces(s: string, gap: string)
    requires All(gap, IsSpace)
    ensures Words(s + gap) == Words(s)
    decreases |s|
  {
    if s == [] {
      assert s + gap == gap;
      AllSpacesNoWords(gap);
    } else if IsSpace(s[0]) {
      assert (s + gap)[1..] == s[1..] + gap;
      WordsBeforeSpaces(s[1..], gap);
    } else {
      var (w, rest) := Span(s, c => !IsSpace(c));
      if rest == [] {
        assert s == w;
        SpanOfRun(w, gap, c => !IsSpace(c));
        AllSpacesNoWords(gap);
        assert Words(s + gap) == [w] + Words(gap);
      } else {
        assert s + gap == w + (rest + gap);
        SpanOfRun(w, rest + gap, c => !IsSpace(c));
        WordsBeforeSpaces(rest, gap);
        assert Words(s + gap) == [w] + Words(rest + gap);
      }
    }
  }

  /**
   * A layout of a string: whitespace gaps alternating with words,
   * `gaps[0] + ws[0] + gaps[1] + ... + ws[n-1] + gaps[n]`.
   */
  function Interleave(gaps: seq<string>, ws: seq<string>): string
    requires |gaps| == |ws| + 1
  {
    if ws == [] then gaps[0] else gaps[0] + (ws[0] + Interleave(gaps[1..], ws[1..]))
  }

  /**
   * `s.split()` returns exactly the words of any layout of `s` whose gaps are
   * whitespace, the inner ones non-empty, and whose words are non-empty and free
   * of whitespace: the maximal non-whitespace runs, in order.
   */
  lemma {:induction false} WordsOfLayout(gaps: seq<string>, ws: seq<string>)
    requires |gaps| == |ws| + 1
    requires forall i | 0 <= i < |gaps| :: All(gaps[i], IsSpace)
    requires forall i | 0 < i < |ws| :: gaps[i] != []
    requires forall i | 0 <= i < |ws| :: ws[i] != [] && NoSpace(ws[i])
    ensures Words(Interleave(gaps, ws)) == ws
  {
    if ws == [] {
      AllSpacesNoWords(gaps[0]);
    } else {
      var rest := Interleave(gaps[1..], ws[1..]);
      WordsAfterSpaces(gaps[0], ws[0] + rest);
      if |ws| == 1 {
        assert rest == gaps[1];
        WordsBeforeSpaces(ws[0], gaps[1]);
        SpanOfRun(ws[0], [], c => !IsSpace(c));
        assert ws[0] + [] == ws[0];
      } else {
        WordsOfLayout(gaps[1..], ws[1..]);
        assert rest == gaps[1] + (ws[1] + Interleave(gaps[2..], ws[2..]));
        assert rest[0] == gaps[1][0];
        assert ws[0] + rest == ws[0] + [rest[0]] + rest[1..];
        WordsOfWordThenSpace(ws[0], rest[0], rest[1..]);
        assert [ws[0]] + ws[1..] == ws;
      }
    }
  }

  /**
   * `" ".join(parts).split() == parts` when every part is a non-empty word:
   * normalising whitespace with `" ".join(line.split())` and splitting again
   * gives back `line.split()`.
   */
  lemma {:induction false} WordsOfJoin(ws: seq<string>)
    requires forall i | 0 <= i < |ws| :: ws[i] != [] && NoSpace(ws[i])
    ensures Words(Join(ws, ' ')) == ws
  {
    if |ws| == 1 {
      SpanOfRun(ws[0], [], c => !IsSpace(c));
      assert ws[0] + [] == ws[0];
    } else if |ws| > 1 {
      WordsOfWordThenSpace(ws[0], ' ', Join(ws[1..], ' '));
      WordsOfJoin(ws[1..]);
      assert [ws[0]] + ws[1..] == ws;
    }
  }

  /** The idempotence that `getCanDate` relies on when it normalises a line before splitting it. */
  lemma NormalisedWords(s: string)
    ensures Words(Join(Words(s), ' ')) == Words(s)
  {
    WordsOfJoin(Words(s));
  }
}
