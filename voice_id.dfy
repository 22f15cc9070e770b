/**
 * The voice selector of the node: the cached option strings have the form
 * `name (voice_id)`, and `generate_speech` recovers the provider's voice id
 * from the selected option with `voice.split("(")[-1].strip(")")`.
 */
module VoiceId {

  /** Python's `s.split(sep)` for a one-character separator `sep`. */
  function Split(s: string, sep: char): (pieces: seq<string>)
    ensures |pieces| >= 1
    decreases |s|
  {
    if s == [] then [[]]
    else
      var rest := Split(s[1..], sep);
      if s[0] == sep then [[]] + rest
      else [[s[0]] + rest[0]] + rest[1..]
  }

  /** Python's `sep.join(pieces)`: the inverse of `Split`. */
  function Join(pieces: seq<string>, sep: char): string
    requires |pieces| >= 1
    decreases |pieces|
  {
    if |pieces| == 1 then pieces[0] else pieces[0] + [sep] + Join(pieces[1..], sep)
  }

  /** Joining the pieces with the separator gives back the original string. */
  lemma {:induction false} SplitJoin(s: string, sep: char)
    ensures Join(Split(s, sep), sep) == s
    decreases |s|
  {
    if s != [] {
      SplitJoin(s[1..], sep);
      var rest := Split(s[1..], sep);
      if s[0] == sep {
        assert Join(Split(s, sep), sep) == [] + [sep] + Join(rest, sep);
      } else if |rest| == 1 {
        assert Join(Split(s, sep), sep) == [s[0]] + rest[0];
      } else {
        var pieces := Split(s, sep);
        assert pieces[1..] == rest[1..];
        assert Join(pieces, sep) == [s[0]] + rest[0] + [sep] + Join(rest[1..], sep);
      }
    }
  }

  /** No piece of a split contains the separator. */
  lemma {:induction false} SplitPiecesLackSeparator(s: string, sep: char)
    ensures forall k :: 0 <= k < |Split(s, sep)| ==> sep !in Split(s, sep)[k]
    decreases |s|
  {
    if s != [] {
      SplitPiecesLackSeparator(s[1..], sep);
      var rest := Split(s[1..], sep);
      var pieces := Split(s, sep);
      if s[0] != sep {
        forall k | 0 <= k < |pieces| ensures sep !in pieces[k] {
          if k > 0 { assert pieces[k] == rest[k]; }
        }
      }
    }
  }

  /** `s.split(sep)[-1]`: the text after the last `sep`, or all of `s`. */
  function LastPiece(s: string, sep: char): (last: string)
    ensures sep !in last
  {
    var pieces := Split(s, sep);
    SplitPiecesLackSeparator(s, sep);
    pieces[|pieces| - 1]
  }

  /**
   * The last piece is the suffix of `s` that follows the last `sep`: it holds
   * no `sep`, and it is either all of `s` or is preceded by a `sep`.
   */
  lemma {:induction false} LastPieceIsSuffixAfterLastSeparator(s: string, sep: char)
    ensures var t := LastPiece(s, sep);
      && sep !in t
      && |t| <= |s|
      && t == s[|s| - |t|..]
      && (|t| == |s| <==> |Split(s, sep)| == 1)
      && (|t| == |s| || s[|s| - |t| - 1] == sep)
    decreases |s|
  {
    var pieces := Split(s, sep);
    SplitPiecesLackSeparator(s, sep);
    assert sep !in pieces[|pieces| - 1];
    if s != [] {
      LastPieceIsSuffixAfterLastSeparator(s[1..], sep);
      var rest := Split(s[1..], sep);
      if s[0] != sep && |rest| == 1 {
        assert rest[0] == s[1..];
        assert LastPiece(s, sep) == s;
      } else {
        assert LastPiece(s, sep) == LastPiece(s[1..], sep);
      }
    }
  }

  /** Splitting at a separator splits the two sides independently. */
  lemma {:induction false} SplitAtSeparator(a: string, sep: char, b: string)
    ensures Split(a + [sep] + b, sep) == Split(a, sep) + Split(b, sep)
    decreases |a|
  {
    var s := a + [sep] + b;
    if a == [] {
      assert s[1..] == b;
    } else {
      assert s[0] == a[0];
      assert s[1..] == a[1..] + [sep] + b;
      SplitAtSeparator(a[1..], sep, b);
    }
  }

  /** A string without the separator is a single piece. */
  lemma {:induction false} SplitWithoutSeparator(s: string, sep: char)
    requires sep !in s
    ensures Split(s, sep) == [s]
    decreases |s|
  {
    if s != [] {
      assert s[0] in s;
      assert forall x :: x in s[1..] ==> x in s;
      SplitWithoutSeparator(s[1..], sep);
      assert [s[0]] + s[1..] == s;
    }
  }

  /** Whatever precedes the last separator, the last piece is what follows it. */
  lemma LastPieceAfterSeparator(prefix: string, sep: char, t: string)
    requires sep !in t
    ensures LastPiece(prefix + [sep] + t, sep) == t
  {
    SplitAtSeparator(prefix, sep, t);
    SplitWithoutSeparator(t, sep);
  }

  /** Without any separator, `split` yields the whole string. */
  lemma LastPieceWithoutSeparator(s: string, sep: char)
    requires sep !in s
    ensures LastPiece(s, sep) == s
  {
    SplitWithoutSeparator(s, sep);
  }

  /** Python's `s.lstrip(c)`: drops every leading `c`; what is left is a suffix not starting with `c`. */
  function StripLeading(s: string, c: char): (r: string)
    ensures |r| <= |s|
    ensures r == [] || r[0] != c
    decreases |s|
  {
    if s != [] && s[0] == c then StripLeading(s[1..], c) else s
  }

  /** Python's `s.rstrip(c)`: drops every trailing `c`; what is left is a prefix not ending with `c`. */
  function StripTrailing(s: string, c: char): (r: string)
    ensures |r| <= |s|
    ensures r == [] || r[|r| - 1] != c
    decreases |s|
  {
    if s != [] && s[|s| - 1] == c then StripTrailing(s[..|s| - 1], c) else s
  }

  /** `lstrip` keeps a suffix, and everything it drops is the stripped character. */
  lemma {:induction false} StripLeadingDropsOnly(s: string, c: char)
    ensures StripLeading(s, c) == s[|s| - |StripLeading(s, c)|..]
    ensures forall k :: 0 <= k < |s| - |StripLeading(s, c)| ==> s[k] == c
    decreases |s|
  {
    if s != [] && s[0] == c {
      StripLeadingDropsOnly(s[1..], c);
      assert forall k :: 1 <= k < |s| ==> s[k] == s[1..][k - 1];
    }
  }

  /** `rstrip` keeps a prefix, and everything it drops is the stripped character. */
  lemma {:induction false} StripTrailingDropsOnly(s: string, c: char)
    ensures StripTrailing(s, c) == s[..|StripTrailing(s, c)|]
    ensures forall k :: |StripTrailing(s, c)| <= k < |s| ==> s[k] == c
    decreases |s|
  {
    if s != [] && s[|s| - 1] == c {
      StripTrailingDropsOnly(s[..|s| - 1], c);
      assert forall k :: 0 <= k < |s| - 1 ==> s[k] == s[..|s| - 1][k];
    }
  }

  /** Python's `s.strip(c)`: drops every leading and every trailing `c`. */
  function Strip(s: string, c: char): (r: string)
    ensures |r| <= |s|
    ensures r == [] || (r[0] != c && r[|r| - 1] != c)
  {
    var left := StripLeading(s, c);
    StripTrailingDropsOnly(left, c);
    StripTrailing(left, c)
  }

  /** Stripping only removes characters: it introduces none. */
  lemma StripIntroducesNothing(s: string, c: char, d: char)
    requires d !in s
    ensures d !in Strip(s, c)
  {
    var left := StripLeading(s, c);
    StripLeadingDropsOnly(s, c);
    var r := StripTrailing(left, c);
    StripTrailingDropsOnly(left, c);
  }

  /** `n` copies of `c`. */
  function Repeat(c: char, n: nat): (r: string)
    ensures |r| == n
  {
    if n == 0 then [] else [c] + Repeat(c, n - 1)
  }

  lemma {:induction false} RepeatConcat(c: char, m: nat, n: nat)
    ensures Repeat(c, m) + Repeat(c, n) == Repeat(c, m + n)
    decreases m
  {
    if m > 0 {
      RepeatConcat(c, m - 1, n);
      assert Repeat(c, m) + Repeat(c, n) == [c] + (Repeat(c, m - 1) + Repeat(c, n));
    }
  }

  lemma {:induction false} RepeatLacksOthers(c: char, n: nat, d: char)
    requires c != d
    ensures d !in Repeat(c, n)
    decreases n
  {
    if n > 0 {
      RepeatLacksOthers(c, n - 1, d);
    }
  }

  /** A string that neither starts nor ends with `c`. */
  predicate Unpadded(t: string, c: char)
  {
    t == [] || (t[0] != c && t[|t| - 1] != c)
  }

  lemma {:induction false} StripLeadingPadded(t: string, c: char, m: nat)
    requires t == [] || t[0] != c
    ensures StripLeading(Repeat(c, m) + t, c) == t
    decreases m
  {
    if m > 0 {
      var s := Repeat(c, m) + t;
      assert s == [c] + (Repeat(c, m - 1) + t);
      StripLeadingPadded(t, c, m - 1);
    }
  }

  lemma {:induction false} StripTrailingPadded(t: string, c: char, n: nat)
    requires t == [] || t[|t| - 1] != c
    ensures StripTrailing(t + Repeat(c, n), c) == t
    decreases n
  {
    if n > 0 {
      RepeatConcat(c, n - 1, 1);
      assert Repeat(c, 1) == [c];
      var shorter := t + Repeat(c, n - 1);
      var s := shorter + [c];
      assert s == t + Repeat(c, n);
      assert s[..|s| - 1] == shorter;
      StripTrailingPadded(t, c, n - 1);
    }
  }

  /** Stripping undoes any padding of a string that is not itself padded. */
  lemma StripPadded(t: string, c: char, m: nat, n: nat)
    requires Unpadded(t, c)
    ensures Strip(Repeat(c, m) + t + Repeat(c, n), c) == t
  {
    if t == [] {
      RepeatConcat(c, m, n);
      assert Repeat(c, m) + t + Repeat(c, n) == Repeat(c, m + n) + [];
      StripLeadingPadded([], c, m + n);
    } else {
      var right := t + Repeat(c, n);
      assert right[0] == t[0];
      assert Repeat(c, m) + t + Repeat(c, n) == Repeat(c, m) + right;
      StripLeadingPadded(right, c, m);
      StripTrailingPadded(t, c, n);
    }
  }

  /** How the voice cache renders one voice (the list comprehension entry). */
  function FormatVoiceEntry(name: string, voiceId: string): (entry: string)
    ensures '(' !in voiceId ==> LastPiece(entry, '(') == voiceId + ")"
  {
    var entry := name + " (" + voiceId + ")";
    assert '(' !in voiceId ==> LastPiece(entry, '(') == voiceId + ")" by {
      if '(' !in voiceId {
        assert '(' !in voiceId + ")";
        assert entry == (name + " ") + ['('] + (voiceId + ")");
        LastPieceAfterSeparator(name + " ", '(', voiceId + ")");
      }
    }
    entry
  }

  /** A voice id that a formatted entry gives back intact. */
  predicate WellFormedId(voiceId: string)
  {
    '(' !in voiceId && Unpadded(voiceId, ')')
  }

  /**
   * `voice.split("(")[-1].strip(")")`. The result never contains `(` and
   * neither starts nor ends with `)`.
   */
  function ParseVoiceId(voice: string): (voiceId: string)
    ensures WellFormedId(voiceId)
    ensures |voiceId| <= |voice|
  {
    var t := LastPiece(voice, '(');
    LastPieceIsSuffixAfterLastSeparator(voice, '(');
    StripIntroducesNothing(t, ')', '(');
    Strip(t, ')')
  }

  /**
   * The parsed id is the suffix after the last `(` (all of `voice` when there
   * is none), with every leading and trailing `)` removed.
   */
  lemma ParseVoiceIdTakesSuffixAfterLastOpen(prefix: string, suffix: string, m: nat, n: nat)
    requires prefix == [] || prefix[|prefix| - 1] == '('
    requires '(' !in suffix && Unpadded(suffix, ')')
    ensures ParseVoiceId(prefix + Repeat(')', m) + suffix + Repeat(')', n)) == suffix
  {
    var tail := Repeat(')', m) + suffix + Repeat(')', n);
    RepeatLacksOthers(')', m, '(');
    RepeatLacksOthers(')', n, '(');
    assert prefix + Repeat(')', m) + suffix + Repeat(')', n) == prefix + tail;
    ParseVoiceIdOfSelector(prefix, tail);
    StripPadded(suffix, ')', m, n);
  }

  /** Only what follows the last `(` reaches the stripping. */
  lemma ParseVoiceIdOfSelector(prefix: string, tail: string)
    requires prefix == [] || prefix[|prefix| - 1] == '('
    requires '(' !in tail
    ensures ParseVoiceId(prefix + tail) == Strip(tail, ')')
  {
    LastPieceOfSelector(prefix, tail);
  }

  lemma LastPieceOfSelector(prefix: string, tail: string)
    requires prefix == [] || prefix[|prefix| - 1] == '('
    requires '(' !in tail
    ensures LastPiece(prefix + tail, '(') == tail
  {
    if prefix == [] {
      assert prefix + tail == tail;
      LastPieceWithoutSeparator(tail, '(');
    } else {
      var before := prefix[..|prefix| - 1];
      assert prefix + tail == before + ['('] + tail;
      LastPieceAfterSeparator(before, '(', tail);
    }
  }

  /**
   * Round trip: parsing a formatted entry returns its id exactly when the id
   * holds no `(` and neither starts nor ends with `)`, whatever the name,
   * parentheses in the name included.
   */
  lemma ParseFormattedEntry(name: string, voiceId: string)
    ensures ParseVoiceId(FormatVoiceEntry(name, voiceId)) == voiceId <==> WellFormedId(voiceId)
  {
    if WellFormedId(voiceId) {
      assert FormatVoiceEntry(name, voiceId) == (name + " (") + Repeat(')', 0) + voiceId + Repeat(')', 1);
      ParseVoiceIdTakesSuffixAfterLastOpen(name + " (", voiceId, 0, 1);
    }
  }

  /** The display name may itself hold parentheses. */
  lemma ParseNameWithParentheses()
    ensures ParseVoiceId("John (voice) Doe (abc123)") == "abc123"
  {
    var name, voiceId := "John (voice) Doe", "abc123";
    assert WellFormedId(voiceId);
    ParseFormattedEntry(name, voiceId);
    assert FormatVoiceEntry(name, voiceId) == "John (voice) Doe (abc123)";
  }

  /** A bare id with no parenthesis passes through, trimmed of `)`. */
  lemma ParseBareId(voice: string)
    requires '(' !in voice
    ensures ParseVoiceId(voice) == Strip(voice, ')')
  {
    LastPieceWithoutSeparator(voice, '(');
  }
}
