/** Session identifiers: the UUID-v4 check that the server applies before splicing an id
    into a command line (src/terminal.py `_is_valid_uuid`), the browser's twin of it
    (`isValidUUID`) and the browser's id migration (`migrateSessionId`).

    The text layout is the one of RFC 4122 section 3 for a version-4 UUID
    (section 4.4): 32 hexadecimal digits in groups 8-4-4-4-12, the version digit 4,
    and a variant digit from 8, 9, a, b. */
module Uuid {
  import opened Common

  /** `[0-9a-f]` under a case-insensitive match. */
  predicate IsHexChar(c: char) {
    '0' <= c <= '9' || 'a' <= c <= 'f' || 'A' <= c <= 'F'
  }

  predicate AllHex(s: string) {
    forall i :: 0 <= i < |s| ==> IsHexChar(s[i])
  }

  /** The pattern `^[0-9a-f]{8}-[0-9a-f]{4}-4[0-9a-f]{3}-[89ab][0-9a-f]{3}-[0-9a-f]{12}$`
      with the case-insensitive flag, read as a whole-string match. */
  predicate MatchesV4(s: string) {
    && |s| == 36
    && AllHex(s[0..8]) && s[8] == '-'
    && AllHex(s[9..13]) && s[13] == '-'
    && s[14] == '4' && AllHex(s[15..18]) && s[18] == '-'
    && s[19] in "89abAB" && AllHex(s[20..23]) && s[23] == '-'
    && AllHex(s[24..36])
  }

  /** `isValidUUID` (JavaScript). There `$` matches only at the very end. An id that
      passes is, up to case, the rendering of a version-4 UUID. */
  function JsIsValidUuid(s: string): (r: bool)
    ensures r ==> MatchesV4(s) && IsVersion4(Parse(s)) && Format(Parse(s)) == Lower(s)
  {
    if s != "" && MatchesV4(s) then FormatParse(s); true else false
  }

  /** `_is_valid_uuid` (Python). `re.match` anchors at the start, and `$` also matches
      just before one final newline, so an id followed by "\n" is accepted too. */
  predicate PyIsValidUuid(s: string) {
    && s != ""
    && (MatchesV4(s) || (s[|s| - 1] == '\n' && MatchesV4(s[..|s| - 1])))
  }

  /** The Python check accepts exactly the ids the JavaScript one accepts, with or
      without one final newline. */
  lemma PyAcceptsJsWithNewline(s: string)
    ensures PyIsValidUuid(s) <==> JsIsValidUuid(s) || (|s| == 37 && s[36] == '\n' && JsIsValidUuid(s[..36]))
  {
  }

  /** `migrateSessionId`: keep a stored id that is already a v4 UUID, otherwise use a
      freshly generated one (`crypto.randomUUID()`, given here as `generated`). */
  function MigrateSessionId(oldId: string, generated: string): (r: string)
    requires JsIsValidUuid(generated)
    ensures r == oldId <==> JsIsValidUuid(oldId)
    ensures JsIsValidUuid(r)
  {
    if JsIsValidUuid(oldId) then oldId else generated
  }

  // ---------------------------------------------------------------------------
  // An independent description of the layout: a UUID as 32 hexadecimal digit values,
  // rendered in lower case in groups 8-4-4-4-12.

  predicate IsNibbles(n: seq<int>) {
    |n| == 32 && forall i :: 0 <= i < 32 ==> 0 <= n[i] < 16
  }

  /** Version 4 (digit 13 is 4) and variant 10xx (digit 17 is one of 8, 9, a, b). */
  predicate IsVersion4(n: seq<int>) {
    IsNibbles(n) && n[12] == 4 && 8 <= n[16] <= 11
  }

  function HexDigit(v: int): (c: char)
    requires 0 <= v < 16
    ensures IsHexChar(c) && !IsAsciiUpper(c)
  {
    "0123456789abcdef"[v]
  }

  function HexValue(c: char): (v: int)
    requires IsHexChar(c)
    ensures 0 <= v < 16
    ensures HexDigit(v) == LowerChar(c)
  {
    if '0' <= c <= '9' then c as int - '0' as int
    else if 'a' <= c <= 'f' then c as int - 'a' as int + 10
    else c as int - 'A' as int + 10
  }

  function HexString(n: seq<int>): (s: string)
    requires forall i :: 0 <= i < |n| ==> 0 <= n[i] < 16
    ensures |s| == |n| && AllHex(s)
    ensures forall i :: 0 <= i < |n| ==> s[i] == HexDigit(n[i])
  {
    seq(|n|, i requires 0 <= i < |n| => HexDigit(n[i]))
  }

  function HexValues(s: string): (n: seq<int>)
    requires AllHex(s)
    ensures |n| == |s|
    ensures forall i :: 0 <= i < |s| ==> n[i] == HexValue(s[i])
  {
    seq(|s|, i requires 0 <= i < |s| => HexValue(s[i]))
  }

  /** The canonical text form of a UUID. */
  function Format(n: seq<int>): (s: string)
    requires IsNibbles(n)
    ensures |s| == 36
  {
    HexString(n[0..8]) + "-" + HexString(n[8..12]) + "-" + HexString(n[12..16]) + "-"
    + HexString(n[16..20]) + "-" + HexString(n[20..32])
  }

  /** The digit values of an id that passes the check. */
  function Parse(s: string): (n: seq<int>)
    requires MatchesV4(s)
    ensures IsNibbles(n)
  {
    HexValues(s[0..8]) + HexValues(s[9..13]) + HexValues(s[14..18])
    + HexValues(s[19..23]) + HexValues(s[24..36])
  }

  /** Every rendered version-4 UUID passes both checks. */
  lemma FormatIsValid(n: seq<int>)
    requires IsVersion4(n)
    ensures MatchesV4(Format(n))
    ensures JsIsValidUuid(Format(n)) && PyIsValidUuid(Format(n))
  {
    var s := Format(n);
    FormatGroups(n);
    assert s[14] == s[14..18][0];
    assert s[19] == s[19..23][0];
    assert s[14] == HexDigit(n[12]);
    assert s[19] == HexDigit(n[16]);
  }

  /** Rendering and parsing are inverse: a version-4 UUID survives the round trip. */
  lemma ParseFormat(n: seq<int>)
    requires IsVersion4(n)
    ensures MatchesV4(Format(n)) && Parse(Format(n)) == n
  {
    FormatIsValid(n);
    ParseRendered(n, Format(n));
  }

  lemma ParseRendered(n: seq<int>, s: string)
    requires IsNibbles(n) && s == Format(n) && MatchesV4(s)
    ensures Parse(s) == n
  {
    FormatGroups(n);
    GroupRoundTrip(n, s, 0, 0, 8);
    GroupRoundTrip(n, s, 8, 9, 4);
    GroupRoundTrip(n, s, 12, 14, 4);
    GroupRoundTrip(n, s, 16, 19, 4);
    GroupRoundTrip(n, s, 20, 24, 12);
    assert n == n[0..8] + n[8..12] + n[12..16] + n[16..20] + n[20..32];
  }

  /** One group of digits read back from its rendering. */
  lemma GroupRoundTrip(n: seq<int>, s: string, from: nat, at: nat, len: nat)
    requires IsNibbles(n) && from + len <= 32 && at + len <= |s|
    requires s[at..at + len] == HexString(n[from..from + len])
    ensures AllHex(s[at..at + len]) && HexValues(s[at..at + len]) == n[from..from + len]
  {
    DigitsRoundTrip(n[from..from + len]);
  }

  /** Reading back the digits of a rendered group gives the group. */
  lemma DigitsRoundTrip(g: seq<int>)
    requires forall i :: 0 <= i < |g| ==> 0 <= g[i] < 16
    ensures HexValues(HexString(g)) == g
  {
    forall i | 0 <= i < |g| ensures HexValues(HexString(g))[i] == g[i] {
      DigitRoundTrip(g[i]);
    }
  }

  lemma DigitRoundTrip(v: int)
    requires 0 <= v < 16
    ensures HexValue(HexDigit(v)) == v
  {
  }

  /** Every id that passes the check is the rendering of a version-4 UUID, up to case. */
  lemma FormatParse(s: string)
    requires MatchesV4(s)
    ensures IsVersion4(Parse(s)) && Format(Parse(s)) == Lower(s)
  {
    ParseIsVersion4(s);
    FormatParseText(s);
  }

  lemma ParseIsVersion4(s: string)
    requires MatchesV4(s)
    ensures IsVersion4(Parse(s))
  {
    ParseGroups(s);
  }

  lemma FormatParseText(s: string)
    requires MatchesV4(s)
    ensures Format(Parse(s)) == Lower(s)
  {
    var n := Parse(s);
    ParseGroups(s);
    FormatGroups(n);
    var f := Format(n);
    GroupLowered(f, s, 0, 8, n[0..8]);
    GroupLowered(f, s, 9, 4, n[8..12]);
    GroupLowered(f, s, 14, 4, n[12..16]);
    GroupLowered(f, s, 19, 4, n[16..20]);
    GroupLowered(f, s, 24, 12, n[20..32]);
    forall i | 0 <= i < 36 ensures f[i] == Lower(s)[i] {
      if i == 8 || i == 13 || i == 18 || i == 23 {
        assert f[i] == '-' == s[i];
      }
    }
  }

  lemma ParseGroups(s: string)
    requires MatchesV4(s)
    ensures var n := Parse(s);
      && n[0..8] == HexValues(s[0..8]) && n[8..12] == HexValues(s[9..13])
      && n[12..16] == HexValues(s[14..18]) && n[16..20] == HexValues(s[19..23])
      && n[20..32] == HexValues(s[24..36]) && n[12] == HexValue(s[14]) && n[16] == HexValue(s[19])
  {
    var n := Parse(s);
    assert n[0..8] == HexValues(s[0..8]);
    assert n[8..12] == HexValues(s[9..13]);
    assert n[12..16] == HexValues(s[14..18]);
    assert n[16..20] == HexValues(s[19..23]);
    assert n[20..32] == HexValues(s[24..36]);
  }

  lemma FormatGroups(n: seq<int>)
    requires IsNibbles(n)
    ensures var f := Format(n);
      && f[0..8] == HexString(n[0..8]) && f[9..13] == HexString(n[8..12])
      && f[14..18] == HexString(n[12..16]) && f[19..23] == HexString(n[16..20])
      && f[24..36] == HexString(n[20..32])
      && f[8] == '-' && f[13] == '-' && f[18] == '-' && f[23] == '-'
  {
    var f := Format(n);
    assert f[0..8] == HexString(n[0..8]);
    assert f[9..13] == HexString(n[8..12]);
    assert f[14..18] == HexString(n[12..16]);
    assert f[19..23] == HexString(n[16..20]);
    assert f[24..36] == HexString(n[20..32]);
  }

  /** One group of digits of the rendering is the lower-case form of the same group of the
      id it was parsed from. */
  lemma GroupLowered(f: string, s: string, at: nat, len: nat, g: seq<int>)
    requires at + len <= |f| && at + len <= |s| && AllHex(s[at..at + len])
    requires g == HexValues(s[at..at + len]) && f[at..at + len] == HexString(g)
    ensures forall k :: at <= k < at + len ==> f[k] == Lower(s)[k]
  {
    forall k | at <= k < at + len ensures f[k] == Lower(s)[k] {
      assert f[k] == f[at..at + len][k - at];
      assert s[k] == s[at..at + len][k - at];
    }
  }

  /** What the check lets into a command line: hexadecimal digits and dashes, plus, on the
      Python side, at most one final newline. */
  lemma PyAcceptedCharacters(s: string)
    requires PyIsValidUuid(s)
    ensures forall i :: 0 <= i < |s| ==> IsHexChar(s[i]) || s[i] == '-' || (i == |s| - 1 && s[i] == '\n')
  {
    var t := if MatchesV4(s) then s else s[..|s| - 1];
    assert MatchesV4(t);
    forall i | 0 <= i < |t| ensures IsHexChar(t[i]) || t[i] == '-' {
      if i < 8 { assert t[i] == t[0..8][i]; }
      else if i < 13 && i != 8 { assert t[i] == t[9..13][i - 9]; }
      else if 14 < i < 18 { assert t[i] == t[15..18][i - 15]; }
      else if 19 < i < 23 { assert t[i] == t[20..23][i - 20]; }
      else if 23 < i { assert t[i] == t[24..36][i - 24]; }
    }
  }

  /** The two checks differ exactly on a trailing newline: the Python one accepts
      a valid id followed by "\n", the JavaScript one does not. */
  lemma TrailingNewlineAcceptedOnlyByPython(s: string)
    requires JsIsValidUuid(s)
    ensures PyIsValidUuid(s + "\n") && !JsIsValidUuid(s + "\n")
  {
    assert (s + "\n")[..|s|] == s;
  }
}
