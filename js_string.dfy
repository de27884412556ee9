/**
 * The three JavaScript string primitives the weather front end relies on:
 * `String.prototype.trim`, `String.prototype.toLowerCase` (as far as the
 * icon table can observe it) and `String.prototype.length`, which counts
 * UTF-16 code units rather than characters.
 */
module JsString {

  /** The WhiteSpace and LineTerminator code points of the ECMAScript language
      specification: exactly the characters `trim` removes. */
  predicate IsWhitespace(c: char) {
    var n := c as int;
    n == 0x09 || n == 0x0A || n == 0x0B || n == 0x0C || n == 0x0D || n == 0x20 ||
    n == 0xA0 || n == 0x1680 || (0x2000 <= n <= 0x200A) ||
    n == 0x2028 || n == 0x2029 || n == 0x202F || n == 0x205F ||
    n == 0x3000 || n == 0xFEFF
  }

  ghost predicate AllWhitespace(s: string) {
    forall i :: 0 <= i < |s| ==> IsWhitespace(s[i])
  }

  /** Neither end of `s` is whitespace: the shape every result of `trim` has. */
  ghost predicate IsTrimmed(s: string) {
    s == [] || (!IsWhitespace(s[0]) && !IsWhitespace(s[|s| - 1]))
  }

  /** The index of the first non-whitespace character of `s` at or after
      `from`, or `|s|` when there is none. */
  function StartIndex(s: string, from: nat): (k: nat)
    requires from <= |s|
    ensures from <= k <= |s|
    ensures forall j :: from <= j < k ==> IsWhitespace(s[j])
    ensures k < |s| ==> !IsWhitespace(s[k])
    decreases |s| - from
  {
    if from < |s| && IsWhitespace(s[from]) then StartIndex(s, from + 1) else from
  }

  /** The end of `s[lo..upto]` once its trailing whitespace is dropped. */
  function EndIndex(s: string, lo: nat, upto: nat): (k: nat)
    requires lo <= upto <= |s|
    ensures lo <= k <= upto
    ensures forall j :: k <= j < upto ==> IsWhitespace(s[j])
    ensures k > lo ==> !IsWhitespace(s[k - 1])
  {
    if upto > lo && IsWhitespace(s[upto - 1]) then EndIndex(s, lo, upto - 1) else upto
  }

  /** `s.trim()`: the characters between the first and the last non-whitespace ones. */
  function Trim(s: string): (r: string)
    ensures IsTrimmed(r)
    ensures |r| <= |s|
  {
    var b := StartIndex(s, 0);
    s[b..EndIndex(s, b, |s|)]
  }

  /** The JavaScript test `!s.trim()`: the string is empty or whitespace only. */
  predicate IsBlank(s: string) {
    Trim(s) == []
  }

  /** `trim` yields the empty string exactly for the strings made only of whitespace. */
  lemma BlankIffAllWhitespace(s: string)
    ensures IsBlank(s) <==> AllWhitespace(s)
  {
  }

  /** The scan for the first non-whitespace character stops at the first
      non-whitespace character and nowhere else. */
  lemma {:induction false} StartIndexAt(s: string, from: nat, k: nat)
    requires from <= k <= |s|
    requires forall j :: from <= j < k ==> IsWhitespace(s[j])
    requires k < |s| ==> !IsWhitespace(s[k])
    ensures StartIndex(s, from) == k
    decreases k - from
  {
    if from < k {
      StartIndexAt(s, from + 1, k);
    }
  }

  /** The scan for the trailing whitespace stops after the last
      non-whitespace character and nowhere else. */
  lemma {:induction false} EndIndexAt(s: string, lo: nat, upto: nat, k: nat)
    requires lo <= k <= upto <= |s|
    requires forall j :: k <= j < upto ==> IsWhitespace(s[j])
    requires k > lo ==> !IsWhitespace(s[k - 1])
    ensures EndIndex(s, lo, upto) == k
    decreases upto - k
  {
    if k < upto {
      EndIndexAt(s, lo, upto - 1, k);
    }
  }

  /** `trim` is characterised by its result: whatever whitespace surrounds a
      trimmed string, trimming gives back exactly that string. */
  lemma TrimOfPadded(lead: string, mid: string, trail: string)
    requires AllWhitespace(lead) && AllWhitespace(trail)
    requires IsTrimmed(mid)
    ensures Trim(lead + mid + trail) == mid
  {
    var s := lead + mid + trail;
    var b, e := |lead|, |lead| + |mid|;
    assert forall j :: 0 <= j < |s| ==>
      s[j] == if j < b then lead[j] else if j < e then mid[j - b] else trail[j - e];
    if mid == [] {
      StartIndexAt(s, 0, |s|);
      EndIndexAt(s, |s|, |s|, |s|);
    } else {
      StartIndexAt(s, 0, b);
      EndIndexAt(s, b, |s|, e);
    }
    assert s[b..e] == mid;
  }

  /** `trim` only removes whitespace from the two ends: every string is its
      trimmed form with whitespace before and after it. */
  lemma TrimSplit(s: string) returns (lead: string, trail: string)
    ensures AllWhitespace(lead) && AllWhitespace(trail)
    ensures s == lead + Trim(s) + trail
  {
    var b := StartIndex(s, 0);
    var e := EndIndex(s, b, |s|);
    lead, trail := s[..b], s[e..];
    assert s == s[..b] + s[b..e] + s[e..];
  }

  /** Two whitespace-only strings concatenate to a whitespace-only string. */
  lemma AllWhitespaceConcat(a: string, b: string)
    requires AllWhitespace(a) && AllWhitespace(b)
    ensures AllWhitespace(a + b)
  {
  }

  /** Associativity of `+` on strings, stated for five parts; a separate lemma
      keeps the solver's work in `TrimIgnoresPadding` small. */
  lemma Regroup(a: string, b: string, c: string, d: string, e: string)
    ensures a + (b + c + d) + e == (a + b) + c + (d + e)
  {
  }

  /** Whitespace added around any string is removed again by `trim`. */
  lemma TrimIgnoresPadding(lead: string, s: string, trail: string)
    requires AllWhitespace(lead) && AllWhitespace(trail)
    ensures Trim(lead + s + trail) == Trim(s)
  {
    var m := Trim(s);
    var skipped, rest := TrimSplit(s);
    AllWhitespaceConcat(lead, skipped);
    AllWhitespaceConcat(rest, trail);
    Regroup(lead, skipped, m, rest, trail);
    TrimOfPadded(lead + skipped, m, rest + trail);
  }

  /** `trim` is idempotent. */
  lemma TrimIdempotent(s: string)
    ensures Trim(Trim(s)) == Trim(s)
  {
  }

  /** The lower-case form of one character, as `toLowerCase` produces it for
      every character whose lower-case form is a single ASCII character. */
  function LowerChar(c: char): (l: char)
    ensures 'A' <= c <= 'Z' ==> 'a' <= l <= 'z' && l as int - c as int == 32
    ensures c == '\U{212A}' ==> l == 'k'
    ensures !('A' <= c <= 'Z') && c != '\U{212A}' ==> l == c
    ensures !('A' <= l <= 'Z')
  {
    if 'A' <= c <= 'Z' then (c as int + 32) as char
    else if c == '\U{212A}' then 'k'   // KELVIN SIGN lower-cases to ASCII 'k'
    else c
  }

  /** `s.toLowerCase()`, character by character. */
  function ToLowerCase(s: string): (r: string)
    ensures |r| == |s|
    ensures forall i :: 0 <= i < |s| ==> r[i] == LowerChar(s[i])
  {
    seq(|s|, i requires 0 <= i < |s| => LowerChar(s[i]))
  }

  /** Lower-casing twice is lower-casing once. */
  lemma ToLowerCaseIdempotent(s: string)
    ensures ToLowerCase(ToLowerCase(s)) == ToLowerCase(s)
  {
  }

  /** How many UTF-16 code units encode `c`: two for a character outside the
      Basic Multilingual Plane (a surrogate pair), one otherwise. */
  function CodeUnits(c: char): (n: nat)
    ensures n == 1 || n == 2
  {
    if c as int >= 0x1_0000 then 2 else 1
  }

  /** `s.length`: the number of UTF-16 code units of `s`. */
  function Utf16Length(s: string): (n: nat)
    ensures |s| <= n <= 2 * |s|
    ensures n == |s| <==> forall i :: 0 <= i < |s| ==> s[i] as int < 0x1_0000
  {
    if s == [] then 0 else CodeUnits(s[0]) + Utf16Length(s[1..])
  }
}
