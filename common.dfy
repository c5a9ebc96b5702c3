/** Small value types and string helpers shared by every module of the model. */
module Common {

  /** Absence of a value: a missing dictionary key, a `None` in Python, `null` in JavaScript. */
  datatype Option<+T> = None | Some(value: T) {
    function GetOr(default: T): (r: T)
      ensures Some? ==> r == value
      ensures None? ==> r == default
    {
      match this
      case Some(v) => v
      case None => default
    }
  }

  /** The outcome of a call that may raise: the value, or the exception's message. */
  datatype Result<+T> = Success(value: T) | Failure(error: string)

  type byte = bv8

  /** `s[:n]` in Python, `s.slice(0, n)` in JavaScript: at most the first `n` characters. */
  function Take<T>(s: seq<T>, n: nat): (r: seq<T>)
    ensures |r| <= n && |r| <= |s|
    ensures r == s[..|r|]
    ensures |s| <= n ==> r == s
  {
    if |s| <= n then s else s[..n]
  }

  /** `s.slice(-n)` in JavaScript: at most the last `n` characters. */
  function TakeLast<T>(s: seq<T>, n: nat): (r: seq<T>)
    ensures |r| <= n && |r| <= |s|
    ensures r == s[|s| - |r|..]
    ensures |s| <= n ==> r == s
  {
    if |s| <= n then s else s[|s| - n..]
  }

  predicate IsAsciiUpper(c: char) { 'A' <= c <= 'Z' }
  predicate IsAsciiLower(c: char) { 'a' <= c <= 'z' }
  predicate IsAsciiLetter(c: char) { IsAsciiUpper(c) || IsAsciiLower(c) }

  function LowerChar(c: char): (r: char)
    ensures IsAsciiUpper(c) ==> IsAsciiLower(r)
    ensures !IsAsciiUpper(c) ==> r == c
  {
    if IsAsciiUpper(c) then (c as int + 32) as char else c
  }

  /** ASCII lower-casing. Where the model compares the result with ASCII-only text
      (file extensions, the conflict phrase) this agrees with Python's `str.lower`
      and with JavaScript's case-insensitive regular expressions. */
  function Lower(s: string): (r: string)
    ensures |r| == |s|
    ensures forall i :: 0 <= i < |s| ==> r[i] == LowerChar(s[i])
  {
    if s == [] then [] else [LowerChar(s[0])] + Lower(s[1..])
  }

  /** The decimal rendering of an integer, as Python's `str(int)` writes it. */
  function NatToString(n: nat): (r: string)
    ensures |r| >= 1
    ensures forall i :: 0 <= i < |r| ==> '0' <= r[i] <= '9'
    decreases n
  {
    if n < 10 then [(48 + n) as char] else NatToString(n / 10) + [(48 + n % 10) as char]
  }

  function IntToString(i: int): (r: string)
    ensures |r| >= 1
    ensures i < 0 <==> r[0] == '-'
  {
    if i < 0 then "-" + NatToString(-i) else NatToString(i)
  }

  /** Position of the first occurrence of `c` in `s`, if any. */
  function IndexOf<T(==)>(s: seq<T>, c: T): (r: Option<nat>)
    ensures r.None? <==> c !in s
    ensures r.Some? ==> r.value < |s| && s[r.value] == c && c !in s[..r.value]
  {
    if s == [] then None
    else if s[0] == c then Some(0)
    else match IndexOf(s[1..], c)
      case None => None
      case Some(k) => assert s[1..][..k] == s[1..k + 1]; Some(k + 1)
  }

  /** Position of the last occurrence of `c` in `s`, if any (Python's `str.rfind`). */
  function LastIndexOf<T(==)>(s: seq<T>, c: T): (r: Option<nat>)
    ensures r.None? <==> c !in s
    ensures r.Some? ==> r.value < |s| && s[r.value] == c && c !in s[r.value + 1..]
  {
    if s == [] then None
    else if s[|s| - 1] == c then Some(|s| - 1)
    else
      var r := LastIndexOf(s[..|s| - 1], c);
      assert s[..|s| - 1] + [s[|s| - 1]] == s;
      if r.Some? then assert s[r.value + 1..] == s[..|s| - 1][r.value + 1..] + [s[|s| - 1]]; r
      else r
  }

  /** `list.filter(x => x !== v)`: every element except the occurrences of `v`, in order. */
  function Without<T(==)>(s: seq<T>, v: T): (r: seq<T>)
    ensures v !in r
    ensures forall i :: 0 <= i < |s| && s[i] != v ==> s[i] in r
    ensures forall i :: 0 <= i < |r| ==> r[i] in s
    ensures |r| <= |s|
  {
    if s == [] then [] else (if s[0] == v then [] else [s[0]]) + Without(s[1..], v)
  }

  /** `list.splice(list.indexOf(v), 1)`: the first occurrence of `v` taken out. */
  function RemoveFirst<T(==)>(s: seq<T>, v: T): (r: seq<T>)
    requires v in s
    ensures |r| == |s| - 1
    ensures exists k :: 0 <= k < |s| && s[k] == v && v !in s[..k] && r == s[..k] + s[k + 1..]
  {
    var k := IndexOf(s, v).value;
    s[..k] + s[k + 1..]
  }

  /** No element occurs twice. */
  predicate NoDuplicates<T(==)>(s: seq<T>) {
    forall i, j :: 0 <= i < j < |s| ==> s[i] != s[j]
  }

  lemma {:induction false} WithoutKeepsDistinct<T>(s: seq<T>, v: T)
    requires NoDuplicates(s)
    ensures NoDuplicates(Without(s, v))
  {
    if s != [] {
      WithoutKeepsDistinct(s[1..], v);
      var rest := Without(s[1..], v);
      if s[0] != v {
        forall i | 0 <= i < |rest| ensures rest[i] != s[0] {
          var j :| 0 <= j < |s[1..]| && s[1..][j] == rest[i];
          assert s[j + 1] == rest[i];
        }
      }
    }
  }

  /** `s` keeps the elements of `t` in their relative order (a subsequence). */
  predicate IsSubsequence<T(==)>(s: seq<T>, t: seq<T>)
    decreases |t|
  {
    if s == [] then true
    else if t == [] then false
    else if s[0] == t[0] then IsSubsequence(s[1..], t[1..])
    else IsSubsequence(s, t[1..])
  }

  /** Filtering keeps the remaining elements in their order. */
  lemma {:induction false} WithoutIsSubsequence<T>(s: seq<T>, v: T)
    ensures IsSubsequence(Without(s, v), s)
  {
    if s != [] {
      WithoutIsSubsequence(s[1..], v);
      var rest := Without(s[1..], v);
      if s[0] == v {
        assert Without(s, v) == rest;
        assert rest == [] || rest[0] != s[0];
      } else {
        assert Without(s, v) == [s[0]] + rest;
        assert ([s[0]] + rest)[1..] == rest;
      }
    }
  }

  /** A prefix of a subsequence is a subsequence. */
  lemma {:induction false} PrefixIsSubsequence<T>(s: seq<T>, t: seq<T>, k: nat)
    requires IsSubsequence(s, t) && k <= |s|
    ensures IsSubsequence(s[..k], t)
    decreases |t|
  {
    if k > 0 && t != [] {
      if s[0] == t[0] {
        assert s[..k][1..] == s[1..][..k - 1];
        PrefixIsSubsequence(s[1..], t[1..], k - 1);
      } else {
        PrefixIsSubsequence(s, t[1..], k);
      }
    }
  }

  /** Concatenation of a sequence of strings (`"".join(chunks)`). */
  function Concat(chunks: seq<string>): string {
    if chunks == [] then "" else chunks[0] + Concat(chunks[1..])
  }

  lemma {:induction false} ConcatAppend(a: seq<string>, b: seq<string>)
    ensures Concat(a + b) == Concat(a) + Concat(b)
  {
    if a == [] {
      assert a + b == b;
    } else {
      assert (a + b)[1..] == a[1..] + b;
      ConcatAppend(a[1..], b);
    }
  }
}
