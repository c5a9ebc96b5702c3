/** The browser's "session already in use" detector (the `terminal_output` branch of
    `AgentTerminal.connect` in the page script of server.py): the rolling output buffer,
    the escape-sequence stripper, and the case-insensitive pattern
    `already\s+in\s+use` searched anywhere in a text. */
module ConflictDetector {
  import opened Common

  const Esc: char := '\U{1b}'
  const Bel: char := '\U{07}'

  // ---------------------------------------------------------------------------
  // Rolling buffer

  const BufferLimit: nat := 2000
  const BufferKeep: nat := 1000

  /** `outputBuffer += data`, then, above 2000 characters, only the last 1000 are kept. */
  function Roll(buffer: string, data: string): (r: string)
    ensures |r| <= |buffer + data|
    ensures r == (buffer + data)[|buffer + data| - |r|..]
    ensures |buffer + data| <= BufferLimit ==> r == buffer + data
    ensures |buffer + data| > BufferLimit ==> |r| == BufferKeep
  {
    var b := buffer + data;
    if |b| > BufferLimit then TakeLast(b, BufferKeep) else b
  }

  /** The buffer never grows beyond 2000 characters, and it always ends with the most
      recent output: the chunk just received, or its last 1000 characters. */
  lemma RollBounded(buffer: string, data: string)
    requires |buffer| <= BufferLimit
    ensures |Roll(buffer, data)| <= BufferLimit
    ensures |data| <= BufferKeep ==> Roll(buffer, data)[|Roll(buffer, data)| - |data|..] == data
  {
    var b := buffer + data;
    var r := Roll(buffer, data);
    if |data| <= BufferKeep {
      assert b[|b| - |data|..] == data;
      assert r[|r| - |data|..] == b[|b| - |data|..];
    }
  }

  // ---------------------------------------------------------------------------
  // Escape stripping: three global replacements, applied in order.

  /** The first ASCII letter at or after `from`. */
  function LetterFrom(s: string, from: nat): (r: Option<nat>)
    ensures r.Some? ==> from <= r.value < |s| && IsAsciiLetter(s[r.value])
                        && forall k :: from <= k < r.value ==> !IsAsciiLetter(s[k])
    ensures r.None? ==> forall k :: from <= k < |s| ==> !IsAsciiLetter(s[k])
    decreases |s| - from
  {
    if from >= |s| then None
    else if IsAsciiLetter(s[from]) then Some(from)
    else LetterFrom(s, from + 1)
  }

  /** The first occurrence of `c` at or after `from`. */
  function CharFrom(s: string, from: nat, c: char): (r: Option<nat>)
    ensures r.Some? ==> from <= r.value < |s| && s[r.value] == c
                        && forall k :: from <= k < r.value ==> s[k] != c
    ensures r.None? ==> forall k :: from <= k < |s| ==> s[k] != c
    decreases |s| - from
  {
    if from >= |s| then None
    else if s[from] == c then Some(from)
    else CharFrom(s, from + 1, c)
  }

  /** `replace(/\x1b\[[^a-zA-Z]*[a-zA-Z]/g, '')`: each ESC `[` up to and including the next
      ASCII letter is removed; an ESC `[` with no letter after it stays. */
  function RemoveCsi(s: string): (r: string)
    ensures |r| <= |s|
    decreases |s|
  {
    if s == [] then []
    else if |s| >= 2 && s[0] == Esc && s[1] == '[' && LetterFrom(s, 2).Some? then
      RemoveCsi(s[LetterFrom(s, 2).value + 1..])
    else [s[0]] + RemoveCsi(s[1..])
  }

  /** `replace(/\x1b\][^\x07]*\x07/g, '')`: each ESC `]` up to and including the next BEL is
      removed. */
  function RemoveOsc(s: string): (r: string)
    ensures |r| <= |s|
    decreases |s|
  {
    if s == [] then []
    else if |s| >= 2 && s[0] == Esc && s[1] == ']' && CharFrom(s, 2, Bel).Some? then
      RemoveOsc(s[CharFrom(s, 2, Bel).value + 1..])
    else [s[0]] + RemoveOsc(s[1..])
  }

  predicate IsControl(c: char) { c < ' ' }

  /** `replace(/[\x00-\x1f]/g, ' ')`. */
  function BlankControls(s: string): (r: string)
    ensures |r| == |s|
    ensures forall i :: 0 <= i < |s| ==> r[i] == if IsControl(s[i]) then ' ' else s[i]
  {
    seq(|s|, i requires 0 <= i < |s| => if IsControl(s[i]) then ' ' else s[i])
  }

  /** `stripAnsi`: the result holds no control character (ESC included) and is never
      longer than the input; text without control characters comes through unchanged. */
  function StripAnsi(s: string): (r: string)
    ensures IsPlain(r) && |r| <= |s|
    ensures IsPlain(s) ==> r == s
  {
    PlainSurvivesRemovals(s);
    BlankControls(RemoveOsc(RemoveCsi(s)))
  }

  predicate IsPlain(s: string) {
    forall i :: 0 <= i < |s| ==> !IsControl(s[i])
  }

  lemma {:induction false} RemoveCsiKeepsPlain(s: string)
    requires IsPlain(s)
    ensures RemoveCsi(s) == s
  {
    if s != [] {
      RemoveCsiKeepsPlain(s[1..]);
    }
  }

  lemma {:induction false} RemoveOscKeepsPlain(s: string)
    requires IsPlain(s)
    ensures RemoveOsc(s) == s
  {
    if s != [] {
      RemoveOscKeepsPlain(s[1..]);
    }
  }

  lemma PlainSurvivesRemovals(s: string)
    ensures IsPlain(s) ==> RemoveOsc(RemoveCsi(s)) == s
  {
    if IsPlain(s) {
      RemoveCsiKeepsPlain(s);
      RemoveOscKeepsPlain(s);
    }
  }

  // ---------------------------------------------------------------------------
  // The pattern /already\s+in\s+use/i

  /** JavaScript's `\s`: white space and line terminators. */
  predicate IsJsSpace(c: char) {
    || c == '\t' || c == '\n' || c == '\U{0b}' || c == '\U{0c}' || c == '\r' || c == ' '
    || c == '\U{a0}' || c == '\U{1680}' || '\U{2000}' <= c <= '\U{200a}'
    || c == '\U{2028}' || c == '\U{2029}' || c == '\U{202f}' || c == '\U{205f}'
    || c == '\U{3000}' || c == '\U{feff}'
  }

  /** `w` (lower-case ASCII) appears at `i`, ignoring ASCII case. */
  predicate WordAt(s: string, i: nat, w: string) {
    i + |w| <= |s| && forall t :: 0 <= t < |w| ==> LowerChar(s[i + t]) == w[t]
  }

  /** One or more spaces fill `s[i..j]`. */
  predicate SpacesBetween(s: string, i: nat, j: nat) {
    i < j <= |s| && forall k :: i <= k < j ==> IsJsSpace(s[k])
  }

  /** The reference reading of the pattern: a match starting at `i`, whose two runs of
      spaces end at `j` and `k`. */
  predicate MatchSpans(s: string, i: nat, j: nat, k: nat) {
    WordAt(s, i, "already") && SpacesBetween(s, i + 7, j) && WordAt(s, j, "in")
    && SpacesBetween(s, j + 2, k) && WordAt(s, k, "use")
  }

  ghost predicate MentionsConflict(s: string) {
    exists i: nat, j: nat, k: nat :: MatchSpans(s, i, j, k)
  }

  /** The first index at or after `j` that does not hold a space. */
  function SkipSpaces(s: string, j: nat): (r: nat)
    requires j <= |s|
    ensures j <= r <= |s|
    ensures forall k :: j <= k < r ==> IsJsSpace(s[k])
    ensures r < |s| ==> !IsJsSpace(s[r])
    decreases |s| - j
  {
    if j < |s| && IsJsSpace(s[j]) then SkipSpaces(s, j + 1) else j
  }

  /** The matcher at one position: since `in` and `use` begin with letters, `\s+` takes
      every space before them. */
  predicate PhraseAt(s: string, i: nat) {
    WordAt(s, i, "already")
    && var j := SkipSpaces(s, i + 7);
    j > i + 7 && WordAt(s, j, "in")
    && var k := SkipSpaces(s, j + 2);
    k > j + 2 && WordAt(s, k, "use")
  }

  /** The first position in `from..n` where `p` holds: the scan a regular expression
      makes over its start positions. */
  function FirstWhere(n: nat, from: nat, p: nat -> bool): Option<nat>
    decreases n - from
  {
    if from >= n then None
    else if p(from) then Some(from)
    else FirstWhere(n, from + 1, p)
  }

  /** The scan finds a position where `p` holds, and `p` holds nowhere between `from`
      and the one it finds. */
  lemma {:induction false} FirstWhereLeftmost(n: nat, from: nat, p: nat -> bool)
    ensures var r := FirstWhere(n, from, p);
      && (r.Some? ==> from <= r.value < n && p(r.value))
      && (forall i: nat :: from <= i < n && (r.None? || i < r.value) ==> !p(i))
    decreases n - from
  {
    if from < n && !p(from) {
      FirstWhereLeftmost(n, from + 1, p);
    }
  }

  /** A scan that finds nothing passed every position. */
  lemma {:induction false} FirstWhereNone(n: nat, from: nat, p: nat -> bool)
    requires forall i: nat :: from <= i < n ==> !p(i)
    ensures FirstWhere(n, from, p) == None
    decreases n - from
  {
    if from < n {
      FirstWhereNone(n, from + 1, p);
    }
  }

  function PhraseTest(s: string): nat -> bool {
    (i: nat) => PhraseAt(s, i)
  }

  /** The leftmost position at or after `from` where the pattern matches. */
  function FindPhrase(s: string, from: nat): Option<nat> {
    FirstWhere(|s|, from, PhraseTest(s))
  }

  /** The search finds a match, and no match lies between `from` and the one it finds. */
  lemma FindPhraseLeftmost(s: string, from: nat)
    ensures var r := FindPhrase(s, from);
      && (r.Some? ==> from <= r.value < |s| && PhraseAt(s, r.value))
      && (forall i: nat :: from <= i < |s| && (r.None? || i < r.value) ==> !PhraseAt(s, i))
  {
    FirstWhereLeftmost(|s|, from, PhraseTest(s));
    forall i: nat ensures PhraseTest(s)(i) == PhraseAt(s, i) { }
  }

  /** `conflictPattern.test(s)`. */
  predicate HasConflictPhrase(s: string) {
    FindPhrase(s, 0).Some?
  }

  /** Text where the matcher fails at every position has no match. */
  lemma NoPhraseFound(s: string)
    requires forall i: nat :: i < |s| ==> !PhraseAt(s, i)
    ensures !HasConflictPhrase(s)
  {
    forall i: nat ensures PhraseTest(s)(i) == PhraseAt(s, i) { }
    FirstWhereNone(|s|, 0, PhraseTest(s));
  }

  /** No match starts anywhere but at an `a`. */
  lemma NoPhraseWithoutA(s: string, i: nat)
    requires i < |s| && LowerChar(s[i]) != 'a'
    ensures !PhraseAt(s, i)
  {
    assert LowerChar(s[i + 0]) != "already"[0];
  }

  /** The matcher finds the phrase exactly when the reference reading does. */
  lemma HasConflictPhraseIff(s: string)
    ensures HasConflictPhrase(s) <==> MentionsConflict(s)
  {
    FindPhraseLeftmost(s, 0);
    if HasConflictPhrase(s) {
      FoundPhraseMatches(s, FindPhrase(s, 0).value);
    }
    if MentionsConflict(s) {
      var i: nat, j: nat, k: nat :| MatchSpans(s, i, j, k);
      MatchIsFound(s, i, j, k);
    }
  }

  lemma FoundPhraseMatches(s: string, i: nat)
    requires PhraseAt(s, i)
    ensures MentionsConflict(s)
  {
    var j := SkipSpaces(s, i + 7);
    var k := SkipSpaces(s, j + 2);
    assert MatchSpans(s, i, j, k);
  }

  lemma MatchIsFound(s: string, i: nat, j: nat, k: nat)
    requires MatchSpans(s, i, j, k)
    ensures PhraseAt(s, i)
  {
    assert LowerChar(s[j + 0]) == "in"[0] && LowerChar(s[k + 0]) == "use"[0];
    SpacesRunIsMaximal(s, i + 7, j);
    SpacesRunIsMaximal(s, j + 2, k);
  }

  /** A run of spaces followed by something else ends where `SkipSpaces` stops. */
  lemma SpacesRunIsMaximal(s: string, i: nat, j: nat)
    requires SpacesBetween(s, i, j) && j < |s| && !IsJsSpace(s[j])
    ensures SkipSpaces(s, i) == j
  {
  }

  // ---------------------------------------------------------------------------
  // The check made on each chunk

  const LargeChunk: nat := 4096

  /** The check run on a `terminal_output` chunk once the buffer has been rolled: only
      for chunks under 4096 characters, on the stripped chunk, the stripped buffer, the raw
      chunk and the raw buffer. */
  predicate ConflictDetected(data: string, buffer: string) {
    |data| < LargeChunk &&
    (HasConflictPhrase(StripAnsi(data)) || HasConflictPhrase(StripAnsi(buffer))
     || HasConflictPhrase(data) || HasConflictPhrase(buffer))
  }

  /** In terms of the reference reading of the pattern: a chunk of 4096 characters or
      more is never checked, and a smaller one triggers exactly when the phrase is in the
      stripped chunk, the stripped buffer, the raw chunk or the raw buffer. */
  lemma ConflictDetectedMeaning(data: string, buffer: string)
    ensures ConflictDetected(data, buffer) <==>
      |data| < LargeChunk
      && (MentionsConflict(StripAnsi(data)) || MentionsConflict(StripAnsi(buffer))
          || MentionsConflict(data) || MentionsConflict(buffer))
  {
    HasConflictPhraseIff(StripAnsi(data));
    HasConflictPhraseIff(StripAnsi(buffer));
    HasConflictPhraseIff(data);
    HasConflictPhraseIff(buffer);
  }

  /** A phrase is still found with any text around it. */
  lemma PhraseInContext(p: string, s: string, q: string)
    requires HasConflictPhrase(s)
    ensures HasConflictPhrase(p + s + q)
  {
    HasConflictPhraseIff(s);
    var i: nat, j: nat, k: nat :| MatchSpans(s, i, j, k);
    var u := p + s + q;
    assert forall x :: 0 <= x < |s| ==> u[|p| + x] == s[x];
    assert MatchSpans(u, i + |p|, j + |p|, k + |p|);
    HasConflictPhraseIff(u);
  }

  /** A text with no `a` in either case holds no phrase. */
  lemma NoPhraseWithoutAnyA(s: string)
    requires forall i :: 0 <= i < |s| ==> LowerChar(s[i]) != 'a'
    ensures !HasConflictPhrase(s)
  {
    forall i: nat | i < |s| ensures !PhraseAt(s, i) {
      NoPhraseWithoutA(s, i);
    }
    NoPhraseFound(s);
  }

  lemma {:induction false} RemoveCsiPlainPrefix(a: string, b: string)
    requires IsPlain(a)
    ensures RemoveCsi(a + b) == a + RemoveCsi(b)
  {
    if a == [] {
      assert a + b == b;
    } else {
      assert (a + b)[0] == a[0] && !IsControl(a[0]);
      assert (a + b)[1..] == a[1..] + b;
      RemoveCsiPlainPrefix(a[1..], b);
      assert RemoveCsi(a + b) == [a[0]] + RemoveCsi(a[1..] + b);
      assert [a[0]] + (a[1..] + RemoveCsi(b)) == a + RemoveCsi(b);
    }
  }

  /** A colour or cursor sequence (ESC `[`, parameters without letters, one final
      letter) between two plain texts disappears when the text is stripped. */
  lemma CsiInsidePlainTextStripped(a: string, params: string, final: char, b: string)
    requires IsPlain(a) && IsPlain(b) && IsAsciiLetter(final)
    requires forall i :: 0 <= i < |params| ==> !IsAsciiLetter(params[i])
    ensures StripAnsi(a + ([Esc, '['] + params + [final]) + b) == a + b
  {
    var code := [Esc, '['] + params + [final];
    var t := code + b;
    RemoveCsiPlainPrefix(a, t);
    assert t[0] == Esc && t[1] == '[';
    assert t[|params| + 2] == final;
    assert LetterFrom(t, 2) == Some(|params| + 2) by {
      assert forall i :: 2 <= i < |params| + 2 ==> t[i] == params[i - 2];
    }
    assert t[|params| + 3..] == b;
    RemoveCsiKeepsPlain(b);
    assert a + (code + b) == a + code + b;
    IsPlainConcat(a, b);
    RemoveOscKeepsPlain(a + b);
  }

  lemma {:induction false} RemoveCsiWithoutEsc(s: string)
    requires forall i :: 0 <= i < |s| ==> s[i] != Esc
    ensures RemoveCsi(s) == s
  {
    if s != [] {
      RemoveCsiWithoutEsc(s[1..]);
    }
  }

  lemma {:induction false} RemoveOscPlainPrefix(a: string, b: string)
    requires IsPlain(a)
    ensures RemoveOsc(a + b) == a + RemoveOsc(b)
  {
    if a == [] {
      assert a + b == b;
    } else {
      assert (a + b)[0] == a[0] && !IsControl(a[0]);
      assert (a + b)[1..] == a[1..] + b;
      RemoveOscPlainPrefix(a[1..], b);
      assert RemoveOsc(a + b) == [a[0]] + RemoveOsc(a[1..] + b);
      assert [a[0]] + (a[1..] + RemoveOsc(b)) == a + RemoveOsc(b);
    }
  }

  /** Past its ESC, a title sequence followed by plain text holds no ESC. */
  lemma OscTailWithoutEsc(body: string, b: string)
    requires IsPlain(body) && IsPlain(b)
    ensures forall i :: 0 <= i < |[']'] + body + [Bel] + b| ==> ([']'] + body + [Bel] + b)[i] != Esc
  {
    var rest := [']'] + body + [Bel] + b;
    forall i | 0 <= i < |rest| ensures rest[i] != Esc {
      if 1 <= i <= |body| {
        assert rest[i] == body[i - 1];
      } else if i > |body| + 1 {
        assert rest[i] == b[i - |body| - 2];
      }
    }
  }

  /** A title sequence followed by plain text: the CSI pass leaves it, the OSC pass
      removes the sequence. */
  lemma OscCodeRemoved(body: string, b: string)
    requires IsPlain(body) && IsPlain(b)
    ensures RemoveCsi([Esc, ']'] + body + [Bel] + b) == [Esc, ']'] + body + [Bel] + b
    ensures RemoveOsc([Esc, ']'] + body + [Bel] + b) == b
  {
    var t := [Esc, ']'] + body + [Bel] + b;
    var rest := [']'] + body + [Bel] + b;
    assert t == [Esc] + rest;
    OscTailWithoutEsc(body, b);
    RemoveCsiWithoutEsc(rest);
    assert t[1] == ']';
    assert CharFrom(t, 2, Bel) == Some(|body| + 2) by {
      assert forall i :: 2 <= i < |body| + 2 ==> t[i] == body[i - 2];
      assert t[|body| + 2] == Bel;
    }
    assert t[|body| + 3..] == b;
    RemoveOscKeepsPlain(b);
  }

  /** A title or hyperlink sequence (ESC `]`, a plain body, BEL) between two plain texts
      disappears whole when the text is stripped: it is removed, not blanked. */
  lemma OscInsidePlainTextStripped(a: string, body: string, b: string)
    requires IsPlain(a) && IsPlain(body) && IsPlain(b)
    ensures StripAnsi(a + ([Esc, ']'] + body + [Bel]) + b) == a + b
  {
    var t := [Esc, ']'] + body + [Bel] + b;
    assert a + ([Esc, ']'] + body + [Bel]) + b == a + t;
    OscCodeRemoved(body, b);
    RemoveCsiPlainPrefix(a, t);
    RemoveOscPlainPrefix(a, t);
    IsPlainConcat(a, b);
    assert BlankControls(a + b) == a + b;
  }

  lemma IsPlainConcat(a: string, b: string)
    requires IsPlain(a) && IsPlain(b)
    ensures IsPlain(a + b)
  {
    forall i | 0 <= i < |a + b| ensures !IsControl((a + b)[i]) {
      if i >= |a| { assert (a + b)[i] == b[i - |a|]; }
    }
  }

  /** The phrase broken by a colour code is not in the raw text. */
  lemma ColouredPhraseHiddenWhenRaw(data: string)
    requires data == "already \U{1b}[1min use"
    ensures !HasConflictPhrase(data)
  {
    forall i: nat | i < |data| ensures !PhraseAt(data, i) {
      if i == 0 {
        assert SkipSpaces(data, 7) == 8;
        assert LowerChar(data[8 + 0]) != "in"[0];
      } else if i == 4 {
        assert LowerChar(data[4 + 1]) != "already"[1];
      } else {
        NoPhraseWithoutA(data, i);
      }
    }
    NoPhraseFound(data);
  }

  lemma PlainPhraseFound(s: string)
    requires s == "already in use"
    ensures HasConflictPhrase(s)
  {
    assert WordAt(s, 0, "already");
    assert SkipSpaces(s, 7) == 8;
    assert WordAt(s, 8, "in");
    assert SkipSpaces(s, 10) == 11;
    assert WordAt(s, 11, "use");
    assert PhraseAt(s, 0);
  }

  lemma ColouredPhraseFoundWhenStripped(data: string)
    requires data == "already \U{1b}[1min use"
    ensures HasConflictPhrase(StripAnsi(data))
  {
    var a, b := "already ", "in use";
    CsiInsidePlainTextStripped(a, "1", 'm', b);
    assert a + ([Esc, '['] + "1" + ['m']) + b == data;
    PlainPhraseFound(a + b);
  }

  /** A window-title sequence inside the phrase is removed, so the stripped text still
      holds the phrase (blanking it instead would leave letters of the title between the
      words). */
  lemma TitledPhraseFoundWhenStripped(data: string)
    requires data == "already \U{1b}]0;t\U{07}in use"
    ensures HasConflictPhrase(StripAnsi(data))
  {
    var a, b := "already ", "in use";
    OscInsidePlainTextStripped(a, "0;t", b);
    assert a + ([Esc, ']'] + "0;t" + [Bel]) + b == data;
    PlainPhraseFound(a + b);
  }

  /** A colour code inside the phrase hides it from the raw text but not from the
      stripped text, which is why both are checked. */
  lemma ColouredPhraseDetected(data: string)
    requires data == "already \U{1b}[1min use"
    ensures !HasConflictPhrase(data) && HasConflictPhrase(StripAnsi(data)) && ConflictDetected(data, data)
  {
    ColouredPhraseHiddenWhenRaw(data);
    ColouredPhraseFoundWhenStripped(data);
  }
}
