/** Replacing a secret in text by the marker, and the secrets for which that hides them. */
module SecretText {

  type Marker = m: string | |m| > 0 witness "*"

  predicate Contains(text: string, part: string) {
    exists i :: 0 <= i <= |text| && part <= text[i..]
  }

  /** What replacing the empty pattern does: the marker goes before, between and after. */
  function Interleave(text: string, marker: Marker): string {
    if text == [] then marker else marker + [text[0]] + Interleave(text[1..], marker)
  }

  /** Every leftmost occurrence that does not overlap an earlier one becomes the marker. */
  function Replace(text: string, secret: string, marker: Marker): string
    decreases |text|
  {
    if secret == [] then Interleave(text, marker)
    else if text == [] then []
    else if secret <= text then marker + Replace(text[|secret|..], secret, marker)
    else [text[0]] + Replace(text[1..], secret, marker)
  }

  // ---------------------------------------------------------------------------------------------
  // Secrets that replacing can expose

  /** The secret and the marker agree wherever they overlap when the secret starts `d` places into it. */
  ghost predicate Meets(secret: string, d: int, marker: Marker) {
    && secret != [] && -|secret| < d < |marker|
    && forall i | 0 <= i < |secret| && 0 <= i + d < |marker| :: secret[i] == marker[i + d]
  }

  /** Such an overlap, where the part of the secret before the marker does not itself start an earlier occurrence. */
  ghost predicate ExposedAt(secret: string, d: int, marker: Marker) {
    Meets(secret, d, marker) && (d < 0 ==> StartsNoEarlier(secret[..-d], secret, secret))
  }

  ghost predicate StartsNoEarlier(left: string, rest: string, secret: string) {
    forall i | 0 <= i < |left| :: !(secret <= (left + rest)[i..])
  }

  ghost predicate Safe(secret: string, marker: Marker) {
    secret != [] && forall d :: !ExposedAt(secret, d, marker)
  }

  lemma ExposedIsUnsafe(secret: string, d: int, marker: Marker)
    requires ExposedAt(secret, d, marker)
    ensures !Safe(secret, marker)
  {
  }

  /** A secret that shares no character with the marker is safe. */
  lemma DisjointIsSafe(secret: string, marker: Marker)
    requires secret != [] && forall c | c in secret :: c !in marker
    ensures Safe(secret, marker)
  {
    forall d | -|secret| < d < |marker| ensures !Meets(secret, d, marker) {
      var i := if d < 0 then -d else 0;
      assert secret[i] in secret && marker[i + d] in marker;
    }
  }

  /** Whether an occurrence starts at `i` depends only on the text it would cover. */
  lemma StartsAlike(text: string, longer: string, secret: string, i: nat)
    requires text <= longer && i + |secret| <= |text|
    ensures secret <= text[i..] <==> secret <= longer[i..]
  {
    assert text[i..][..|secret|] == longer[i..][..|secret|];
  }

  lemma MarkerCompletes(secret: string, j: int, rest: string, tail: string, marker: Marker)
    requires 0 <= j < |secret| && secret[j..] <= marker + tail && secret <= rest
    requires StartsNoEarlier(secret[..j], rest, secret)
    ensures !Safe(secret, marker)
  {
    forall i | 0 <= i < |secret| && 0 <= i - j < |marker| ensures secret[i] == marker[i - j] {
      assert secret[i] == secret[j..][i - j];
    }
    assert Meets(secret, -j, marker);
    var text := secret[..j] + rest;
    forall i | 0 <= i < j ensures !(secret <= (secret[..j] + secret)[i..]) {
      StartsAlike(secret[..j] + secret, text, secret, i);
    }
    ExposedIsUnsafe(secret, -j, marker);
  }

  lemma OneMoreKept(secret: string, j: int, rest: string)
    requires 0 <= j < |secret| && rest != [] && rest[0] == secret[j] && !(secret <= rest)
    requires StartsNoEarlier(secret[..j], rest, secret)
    ensures StartsNoEarlier(secret[..j + 1], rest[1..], secret)
  {
    assert secret[..j + 1] + rest[1..] == secret[..j] + rest;
    assert (secret[..j] + rest)[j..] == rest;
  }

  /** Text that went before, of which `secret[..j]` is left, followed by replaced text that completes the secret. */
  lemma {:induction false} CompletionIsExposure(secret: string, j: int, rest: string, marker: Marker)
    requires secret != [] && 0 <= j <= |secret| && secret[j..] <= Replace(rest, secret, marker)
    requires StartsNoEarlier(secret[..j], rest, secret)
    requires j > 0 || !(secret <= rest)
    ensures !Safe(secret, marker)
    decreases |rest|
  {
    var text := secret[..j] + rest;
    assert text[0..] == text;
    assert j == |secret| ==> text == secret + rest;
    if j == |secret| {
      assert false;
    } else if secret <= rest {
      MarkerCompletes(secret, j, rest, Replace(rest[|secret|..], secret, marker), marker);
    } else {
      assert rest[0] == secret[j..][0];
      assert secret[j + 1..] == secret[j..][1..];
      OneMoreKept(secret, j, rest);
      CompletionIsExposure(secret, j + 1, rest[1..], marker);
    }
  }

  lemma OccurrenceInMarkedText(text: string, secret: string, i: nat, marker: Marker)
    requires secret != [] && i < |marker| && secret <= (marker + text)[i..]
    ensures !Safe(secret, marker)
  {
    assert forall m | 0 <= m < |secret| && 0 <= m + i < |marker| :: secret[m] == (marker + text)[i..][m];
    assert Meets(secret, i, marker);
    ExposedIsUnsafe(secret, i, marker);
  }

  lemma OccurrenceInTail(head: string, tail: string, secret: string, i: nat)
    requires |head| <= i <= |head + tail| && secret <= (head + tail)[i..]
    ensures secret <= tail[i - |head|..]
  {
    assert (head + tail)[i..] == tail[i - |head|..];
  }

  lemma {:induction false} OccurrenceIsExposure(text: string, secret: string, i: nat, marker: Marker)
    requires secret != [] && i <= |Replace(text, secret, marker)| && secret <= Replace(text, secret, marker)[i..]
    ensures !Safe(secret, marker)
    decreases |text|
  {
    var out := Replace(text, secret, marker);
    assert out[0..] == out && secret[0..] == secret;
    if text != [] {
      if secret <= text {
        var tail := Replace(text[|secret|..], secret, marker);
        assert out == marker + tail;
        if i < |marker| {
          OccurrenceInMarkedText(tail, secret, i, marker);
        } else {
          OccurrenceInTail(marker, tail, secret, i);
          OccurrenceIsExposure(text[|secret|..], secret, i - |marker|, marker);
        }
      } else if i == 0 {
        CompletionIsExposure(secret, 0, text, marker);
      } else {
        var tail := Replace(text[1..], secret, marker);
        assert out == [text[0]] + tail;
        OccurrenceInTail([text[0]], tail, secret, i);
        OccurrenceIsExposure(text[1..], secret, i - 1, marker);
      }
    }
  }

  ghost predicate Hides(secret: string, text: string, marker: Marker) {
    !Contains(Replace(text, secret, marker), secret)
  }

  lemma SafeIsHidden(text: string, secret: string, marker: Marker)
    requires Safe(secret, marker)
    ensures !Contains(Replace(text, secret, marker), secret)
  {
    if Contains(Replace(text, secret, marker), secret) {
      var i :| 0 <= i <= |Replace(text, secret, marker)| && secret <= Replace(text, secret, marker)[i..];
      OccurrenceIsExposure(text, secret, i, marker);
    }
  }

  // ---------------------------------------------------------------------------------------------
  // The other direction: a text for every exposed secret

  lemma OneIsKept(text: string, secret: string, k: nat, marker: Marker)
    requires secret != [] && k < |text| && !(secret <= text[k..])
    ensures Replace(text[k..], secret, marker) == [text[k]] + Replace(text[k + 1..], secret, marker)
  {
    assert text[k..][1..] == text[k + 1..];
  }

  lemma {:induction false} LeadingTextIsKept(text: string, secret: string, n: nat, marker: Marker)
    requires secret != [] && n <= |text| && forall i | 0 <= i < n :: !(secret <= text[i..])
    ensures Replace(text, secret, marker) == text[..n] + Replace(text[n..], secret, marker)
  {
    if n == 0 {
      assert text[0..] == text;
    } else {
      var before, tail := Replace(text[n - 1..], secret, marker), Replace(text[n..], secret, marker);
      assert Replace(text, secret, marker) == text[..n - 1] + before by {
        LeadingTextIsKept(text, secret, n - 1, marker);
      }
      assert before == [text[n - 1]] + tail by {
        OneIsKept(text, secret, n - 1, marker);
      }
      KeptTogether(text, n, tail);
    }
  }

  lemma KeptTogether(text: string, n: nat, tail: string)
    requires 0 < n <= |text|
    ensures text[..n - 1] + ([text[n - 1]] + tail) == text[..n] + tail
  {
  }

  lemma {:induction false} ShortTextIsKept(text: string, secret: string, marker: Marker)
    requires |text| < |secret|
    ensures Replace(text, secret, marker) == text
  {
    if text != [] {
      ShortTextIsKept(text[1..], secret, marker);
    }
  }

  /** The secret with, around it, the parts of another copy that the marker will not cover. */
  function ExposingText(secret: string, d: int, marker: Marker): string
    requires -|secret| < d < |marker|
  {
    Left(secret, d, marker) + secret + Right(secret, d, marker)
  }

  function Left(secret: string, d: int, marker: Marker): string
    requires -|secret| < d < |marker|
  {
    if d < 0 then secret[..-d] else []
  }

  function Right(secret: string, d: int, marker: Marker): string
    requires -|secret| < d < |marker|
  {
    if |secret| + d > |marker| then secret[|marker| - d..] else []
  }

  lemma ExposingTextStarts(secret: string, d: int, marker: Marker)
    requires ExposedAt(secret, d, marker)
    ensures var left, text := Left(secret, d, marker), ExposingText(secret, d, marker);
      forall i | 0 <= i < |left| :: !(secret <= text[i..])
  {
    var left, text := Left(secret, d, marker), ExposingText(secret, d, marker);
    forall i | 0 <= i < |left| ensures !(secret <= text[i..]) {
      StartsAlike(left + secret, text, secret, i);
    }
  }

  lemma ExposingTextReplaced(secret: string, d: int, marker: Marker)
    requires ExposedAt(secret, d, marker)
    ensures Replace(ExposingText(secret, d, marker), secret, marker) == Left(secret, d, marker) + (marker + Right(secret, d, marker))
  {
    var left, right := Left(secret, d, marker), Right(secret, d, marker);
    var text := ExposingText(secret, d, marker);
    assert text[..|left|] == left && text[|left|..] == secret + right;
    assert Replace(text, secret, marker) == left + Replace(secret + right, secret, marker) by {
      ExposingTextStarts(secret, d, marker);
      LeadingTextIsKept(text, secret, |left|, marker);
    }
    MarkedOnce(secret, right, marker);
  }

  lemma MarkedOnce(secret: string, right: string, marker: Marker)
    requires |right| < |secret|
    ensures Replace(secret + right, secret, marker) == marker + right
  {
    assert (secret + right)[|secret|..] == right;
    ShortTextIsKept(right, secret, marker);
  }

  lemma SpelledAt(secret: string, d: int, i: nat, marker: Marker)
    requires Meets(secret, d, marker) && i < |secret|
    ensures var out, at := Left(secret, d, marker) + (marker + Right(secret, d, marker)), if d < 0 then 0 else d;
      at + i < |out| && out[at + i] == secret[i]
  {
    var left, right := Left(secret, d, marker), Right(secret, d, marker);
    var out, at := left + (marker + right), if d < 0 then 0 else d;
    if i + d < 0 {
      assert out[at + i] == left[i];
    } else if i + d < |marker| {
      assert secret[i] == marker[i + d];
      assert out[at + i] == marker[i + d];
    } else {
      assert out[at + i] == right[i + d - |marker|];
    }
  }

  lemma OverlapSpellsTheSecret(secret: string, d: int, marker: Marker)
    requires Meets(secret, d, marker)
    ensures Contains(Left(secret, d, marker) + (marker + Right(secret, d, marker)), secret)
  {
    var out := Left(secret, d, marker) + (marker + Right(secret, d, marker));
    var at := if d < 0 then 0 else d;
    SpelledAt(secret, d, |secret| - 1, marker);
    forall i | 0 <= i < |secret| ensures out[at..][i] == secret[i] {
      SpelledAt(secret, d, i, marker);
    }
    assert secret <= out[at..];
  }

  lemma ExposureIsAnOccurrence(secret: string, d: int, marker: Marker)
    requires ExposedAt(secret, d, marker)
    ensures !Hides(secret, ExposingText(secret, d, marker), marker)
  {
    ExposingTextReplaced(secret, d, marker);
    OverlapSpellsTheSecret(secret, d, marker);
  }

  /**
   Replacing hides a secret in every text exactly when no copy of it can be completed by the marker.
   A secret that shares no character with the marker is one of these.
   */
  lemma HiddenExactlyWhenSafe(secret: string, marker: Marker)
    requires secret != []
    ensures (forall text :: Hides(secret, text, marker)) <==> Safe(secret, marker)
  {
    if Safe(secret, marker) {
      forall text ensures Hides(secret, text, marker) {
        SafeIsHidden(text, secret, marker);
      }
    } else {
      var d :| ExposedAt(secret, d, marker);
      ExposureIsAnOccurrence(secret, d, marker);
    }
  }

  // ---------------------------------------------------------------------------------------------
  // What replacing leaves alone

  lemma ContainsLater(text: string, secret: string)
    requires text != [] && Contains(text[1..], secret)
    ensures Contains(text, secret)
  {
    var i :| 0 <= i <= |text[1..]| && secret <= text[1..][i..];
    assert text[1..][i..] == text[i + 1..];
  }

  lemma ContainsFirst(text: string, secret: string)
    requires secret <= text
    ensures Contains(text, secret)
  {
    assert text[0..] == text;
  }

  lemma {:induction false} CleanTextIsKept(text: string, secret: string, marker: Marker)
    requires secret != [] && !Contains(text, secret)
    ensures Replace(text, secret, marker) == text
    decreases |text|
  {
    if text != [] {
      if secret <= text {
        ContainsFirst(text, secret);
      } else if Contains(text[1..], secret) {
        ContainsLater(text, secret);
      } else {
        CleanTextIsKept(text[1..], secret, marker);
      }
    }
  }

  /** Where the secret was, the marker is. */
  lemma {:induction false} ReplacedTextIsMarked(text: string, secret: string, marker: Marker)
    requires secret != [] && Contains(text, secret)
    ensures marker[0] in Replace(text, secret, marker)
    decreases |text|
  {
    var i :| 0 <= i <= |text| && secret <= text[i..];
    if secret <= text {
      assert Replace(text, secret, marker)[0] == marker[0];
    } else {
      assert i > 0 by {
        assert text[0..] == text;
      }
      assert text[1..][i - 1..] == text[i..];
      ReplacedTextIsMarked(text[1..], secret, marker);
    }
  }

  // ---------------------------------------------------------------------------------------------
  // Copy by copy

  /** The pieces of a text with the same words between every two of them. */
  function Joined(pieces: seq<string>, between: string): string
    requires pieces != []
  {
    if |pieces| == 1 then pieces[0] else pieces[0] + between + Joined(pieces[1..], between)
  }

  /** The pieces are cut at the leftmost copy of the secret, each time, and the last has none. */
  ghost predicate CutLeftmost(pieces: seq<string>, secret: string)
    requires pieces != []
  {
    if |pieces| == 1 then !Contains(pieces[0], secret)
    else
      && (forall j | 0 <= j < |pieces[0]| :: !(secret <= Joined(pieces, secret)[j..]))
      && CutLeftmost(pieces[1..], secret)
  }

  lemma OnePiece(piece: string, between: string)
    ensures Joined([piece], between) == piece
  {
  }

  lemma EmptyPieceFirst(rest: seq<string>, between: string)
    requires rest != []
    ensures Joined([""] + rest, between) == between + Joined(rest, between)
  {
    var pieces := [""] + rest;
    assert pieces[1..] == rest;
    assert "" + between == between;
  }

  lemma LongerFirstPiece(c: char, rest: seq<string>, between: string)
    requires rest != []
    ensures Joined([[c] + rest[0]] + rest[1..], between) == [c] + Joined(rest, between)
  {
    var pieces := [[c] + rest[0]] + rest[1..];
    assert pieces[1..] == rest[1..];
    if |rest| > 1 {
      var tail := Joined(rest[1..], between);
      assert ([c] + rest[0]) + between + tail == [c] + (rest[0] + between + tail);
    }
  }

  lemma LongerIsCutLeftmost(c: char, rest: seq<string>, secret: string)
    requires secret != [] && rest != [] && CutLeftmost(rest, secret) && !(secret <= [c] + Joined(rest, secret))
    ensures CutLeftmost([[c] + rest[0]] + rest[1..], secret)
  {
    var pieces, text := [[c] + rest[0]] + rest[1..], Joined(rest, secret);
    LongerFirstPiece(c, rest, secret);
    assert pieces[1..] == rest[1..];
    if |rest| == 1 {
      forall i | 0 <= i <= |pieces[0]| ensures !(secret <= pieces[0][i..]) {
        assert pieces[0][0..] == [c] + text;
        assert i > 0 ==> pieces[0][i..] == rest[0][i - 1..];
      }
    } else {
      forall j | 0 <= j < |pieces[0]| ensures !(secret <= ([c] + text)[j..]) {
        assert j > 0 ==> ([c] + text)[j..] == text[j - 1..];
        assert ([c] + text)[0..] == [c] + text;
      }
    }
  }

  /** Cutting the text at its copies of the secret and joining it again at the marker is what replacing does. */
  lemma {:induction false} ReplaceSwapsEveryCopy(text: string, secret: string, marker: Marker) returns (pieces: seq<string>)
    requires secret != []
    ensures pieces != [] && Joined(pieces, secret) == text && CutLeftmost(pieces, secret)
    ensures Joined(pieces, marker) == Replace(text, secret, marker)
    decreases |text|
  {
    if text == [] {
      pieces := [text];
    } else if secret <= text {
      var rest := ReplaceSwapsEveryCopy(text[|secret|..], secret, marker);
      pieces := [""] + rest;
      assert pieces[1..] == rest;
      EmptyPieceFirst(rest, secret);
      EmptyPieceFirst(rest, marker);
      assert text == secret + text[|secret|..];
    } else {
      var rest := ReplaceSwapsEveryCopy(text[1..], secret, marker);
      pieces := [[text[0]] + rest[0]] + rest[1..];
      assert text == [text[0]] + text[1..];
      LongerFirstPiece(text[0], rest, secret);
      LongerFirstPiece(text[0], rest, marker);
      LongerIsCutLeftmost(text[0], rest, secret);
    }
  }

  function Letters(text: string): seq<string> {
    seq(|text|, i requires 0 <= i < |text| => [text[i]])
  }

  lemma {:induction false} MarkedLetters(text: string, marker: Marker)
    ensures Interleave(text, marker) == marker + Joined(Letters(text) + [""], marker)
    decreases |text|
  {
    if text == [] {
      assert Letters(text) + [""] == [""];
    } else {
      var rest := Letters(text[1..]) + [""];
      var pieces := Letters(text) + [""];
      assert pieces == [[text[0]]] + rest && pieces[1..] == rest;
      MarkedLetters(text[1..], marker);
      assert marker + [text[0]] + (marker + Joined(rest, marker)) == marker + ([text[0]] + marker + Joined(rest, marker));
    }
  }

  /** Replacing the empty text puts the marker at both ends and between every two letters. */
  lemma ReplacingNothingMarksEveryGap(text: string, marker: Marker)
    ensures Replace(text, [], marker) == Joined([""] + (Letters(text) + [""]), marker)
    ensures Joined([""] + (Letters(text) + [""]), []) == text
  {
    MarkedLetters(text, marker);
    EmptyPieceFirst(Letters(text) + [""], marker);
    EmptyPieceFirst(Letters(text) + [""], []);
    UnmarkedLetters(text);
  }

  lemma {:induction false} UnmarkedLetters(text: string)
    ensures Joined(Letters(text) + [""], []) == text
    decreases |text|
  {
    if text == [] {
      assert Letters(text) + [""] == [""];
    } else {
      var rest := Letters(text[1..]) + [""];
      var pieces := Letters(text) + [""];
      assert pieces == [[text[0]]] + rest && pieces[1..] == rest;
      UnmarkedLetters(text[1..]);
      assert [text[0]] + [] + text[1..] == text;
    }
  }
}
