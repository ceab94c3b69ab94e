/** String helpers the schemas and actions rely on: the whitespace class that
    both `String.prototype.trim` and the regular-expression class `\s` use,
    `trim`, ASCII lower-casing, the UTF-16 length, array-index keys,
    `split('@')[0]`, and the e-mail pattern
    `^\S+@\S+\.\S+$` of the User schema. */
module Text {

  /** The ECMAScript WhiteSpace and LineTerminator code points. */
  predicate IsSpace(c: char) {
    var n := c as int;
    (0x09 <= n <= 0x0D) || n == 0x20 || n == 0xA0 || n == 0x1680
    || (0x2000 <= n <= 0x200A) || n == 0x2028 || n == 0x2029 || n == 0x202F
    || n == 0x205F || n == 0x3000 || n == 0xFEFF
  }

  predicate NoSpace(s: string) {
    forall i :: 0 <= i < |s| ==> !IsSpace(s[i])
  }

  predicate AllSpace(s: string) {
    forall i :: 0 <= i < |s| ==> IsSpace(s[i])
  }

  /** Drops leading whitespace: the result is a suffix, everything dropped was
      whitespace, and the result does not start with whitespace. */
  function TrimStart(s: string): (r: string)
    ensures |r| <= |s| && r == s[|s| - |r|..]
    ensures AllSpace(s[..|s| - |r|])
    ensures r == [] || !IsSpace(r[0])
  {
    if s != [] && IsSpace(s[0]) then
      var r := TrimStart(s[1..]);
      assert s[..|s| - |r|] == [s[0]] + s[1..][..|s| - 1 - |r|];
      r
    else s
  }

  /** Drops trailing whitespace: the result is a prefix, everything dropped was
      whitespace, and the result does not end with whitespace. */
  function TrimEnd(s: string): (r: string)
    ensures |r| <= |s| && r == s[..|r|]
    ensures AllSpace(s[|r|..])
    ensures r == [] || !IsSpace(r[|r| - 1])
  {
    if s != [] && IsSpace(s[|s| - 1]) then
      var r := TrimEnd(s[..|s| - 1]);
      assert s[|r|..] == s[..|s| - 1][|r|..] + [s[|s| - 1]];
      r
    else s
  }

  /** `s.trim()`, as the schemas' `trim: true` setter applies it. */
  /** `r` is what is left of `s` once whitespace is dropped at both ends:
      a contiguous part of `s` with only whitespace around it. */
  ghost predicate TrimmedFrom(r: string, s: string) {
    exists lead ::
      && 0 <= lead <= |s| - |r|
      && r == s[lead..lead + |r|]
      && AllSpace(s[..lead])
      && AllSpace(s[lead + |r|..])
  }

  function Trim(s: string): (r: string)
    ensures TrimmedFrom(r, s)
  {
    var t := TrimStart(s);
    var r := TrimEnd(t);
    var lead := |s| - |t|;
    assert r == s[lead..lead + |r|];
    assert s[lead + |r|..] == t[|r|..];
    r
  }

  /** Trimming leaves a string that neither starts nor ends with whitespace. */
  lemma TrimBoundaries(s: string)
    ensures var r := Trim(s); r == [] || (!IsSpace(r[0]) && !IsSpace(r[|r| - 1]))
  {
    var t := TrimStart(s);
    var r := TrimEnd(t);
    if r != [] {
      assert r[0] == t[0];
    }
  }

  /** A string is blank after trimming exactly when it is all whitespace: this
      is when a `required` string path with `trim: true` fails. */
  lemma {:induction false} TrimEmptyIffAllSpace(s: string)
    ensures Trim(s) == [] <==> AllSpace(s)
  {
    var t := TrimStart(s);
    if !AllSpace(s) {
      var i :| 0 <= i < |s| && !IsSpace(s[i]);
      assert i >= |s| - |t|;
      assert t[0] == t[..1][0];
    }
  }

  lemma {:induction false} TrimStartNoOp(s: string)
    requires s == [] || !IsSpace(s[0])
    ensures TrimStart(s) == s
  {
  }

  lemma {:induction false} TrimEndNoOp(s: string)
    requires s == [] || !IsSpace(s[|s| - 1])
    ensures TrimEnd(s) == s
  {
  }

  /** Trimming twice is trimming once. */
  lemma {:induction false} TrimIdempotent(s: string)
    ensures Trim(Trim(s)) == Trim(s)
  {
    var r := Trim(s);
    TrimBoundaries(s);
    TrimStartNoOp(r);
    TrimEndNoOp(r);
  }

  /** The length JavaScript reports for a string: UTF-16 code units, so a
      character outside the Basic Multilingual Plane counts twice. */
  function Utf16Length(s: string): (n: nat)
    ensures |s| <= n <= 2 * |s|
    ensures (forall i :: 0 <= i < |s| ==> s[i] as int <= 0xFFFF) ==> n == |s|
  {
    if s == [] then 0 else (if s[0] as int > 0xFFFF then 2 else 1) + Utf16Length(s[1..])
  }

  predicate IsDigit(c: char) {
    '0' <= c <= '9'
  }

  /** The value of a string of decimal digits. */
  function DecimalValue(s: string): nat
    requires forall i :: 0 <= i < |s| ==> IsDigit(s[i])
  {
    if s == [] then 0
    else
      assert IsDigit(s[|s| - 1]);
      DecimalValue(s[..|s| - 1]) * 10 + (s[|s| - 1] as int - '0' as int)
  }

  /** An array index in the sense of section 6.1.7 of ECMA-262: the canonical
      decimal form (no sign, no leading zero) of an integer from 0 to
      2^32 - 2.  `Object.keys` lists such keys before all others. */
  predicate IsArrayIndex(k: string) {
    && |k| >= 1
    && (forall i :: 0 <= i < |k| ==> IsDigit(k[i]))
    && (k[0] != '0' || |k| == 1)
    && DecimalValue(k) <= 0xFFFF_FFFE
  }

  /** ASCII lower-casing of one character. */
  function LowerChar(c: char): char {
    if 'A' <= c <= 'Z' then (c as int + 32) as char else c
  }

  /** `s.toLowerCase()` restricted to ASCII letters. */
  function Lower(s: string): (r: string)
    ensures |r| == |s|
    ensures forall i :: 0 <= i < |s| ==> r[i] == LowerChar(s[i])
  {
    seq(|s|, i requires 0 <= i < |s| => LowerChar(s[i]))
  }

  /** Lower-casing is idempotent and leaves no upper-case ASCII letter. */
  lemma LowerIdempotent(s: string)
    ensures Lower(Lower(s)) == Lower(s)
    ensures forall i :: 0 <= i < |s| ==> !('A' <= Lower(s)[i] <= 'Z')
  {
  }

  lemma {:induction false} TrimStartLower(s: string)
    ensures TrimStart(Lower(s)) == Lower(TrimStart(s))
  {
    if s != [] {
      assert Lower(s)[1..] == Lower(s[1..]);
      if IsSpace(s[0]) {
        TrimStartLower(s[1..]);
      }
    }
  }

  lemma {:induction false} TrimEndLower(s: string)
    ensures TrimEnd(Lower(s)) == Lower(TrimEnd(s))
  {
    if s != [] {
      assert Lower(s)[..|s| - 1] == Lower(s[..|s| - 1]);
      if IsSpace(s[|s| - 1]) {
        TrimEndLower(s[..|s| - 1]);
      }
    }
  }

  /** The User schema's `lowercase` and `trim` setters commute, so the stored
      e-mail does not depend on the order in which they run. */
  lemma LowerTrimCommute(s: string)
    ensures Trim(Lower(s)) == Lower(Trim(s))
  {
    TrimStartLower(s);
    TrimEndLower(TrimStart(s));
  }

  /** Index of the first `c` at or after `from`, or `|s|` when there is none. */
  function FirstIndexFrom(s: string, c: char, from: nat): (i: nat)
    requires from <= |s|
    ensures from <= i <= |s|
    ensures i < |s| ==> s[i] == c
    ensures forall k :: from <= k < i ==> s[k] != c
    decreases |s| - from
  {
    if from == |s| then |s|
    else if s[from] == c then from
    else FirstIndexFrom(s, c, from + 1)
  }

  /** `s.split('@')[0]`: everything before the first '@', or all of `s`. */
  function BeforeFirstAt(s: string): (r: string)
    ensures r <= s
    ensures '@' !in r
    ensures r == s || s[|r|] == '@'
  {
    s[..FirstIndexFrom(s, '@', 0)]
  }

  /** True when some character in `s[lo..hi]` is a '.'. */
  function HasDotBetween(s: string, lo: nat, hi: nat): (b: bool)
    requires hi <= |s|
    ensures b <==> exists j :: lo <= j < hi && s[j] == '.'
    decreases hi - lo
  {
    if lo >= hi then false
    else s[lo] == '.' || HasDotBetween(s, lo + 1, hi)
  }

  /** A left-to-right matcher for `^\S+@\S+\.\S+$`: no whitespace anywhere,
      then the first '@' after the first character must be followed, after at
      least one more character, by a '.' that is not the last character. */
  function MatchesEmailPattern(s: string): (b: bool)
    ensures b ==> NoSpace(s) && |s| >= 5 && '@' in s[1..] && '.' in s
  {
    NoSpace(s) && |s| >= 1 &&
    var i := FirstIndexFrom(s, '@', 1);
    assert i < |s| ==> s[1..][i - 1] == '@';
    i < |s| && HasDotBetween(s, i + 2, |s| - 1)
  }

  /** The meaning of the pattern: the string is `a@b.c` with `a`, `b`, `c`
      non-empty and no whitespace anywhere. */
  predicate EmailShape(s: string) {
    NoSpace(s) &&
    exists i, j :: 1 <= i && i + 2 <= j && j + 2 <= |s| && s[i] == '@' && s[j] == '.'
  }

  lemma MatchesEmailPatternIff(s: string)
    ensures MatchesEmailPattern(s) <==> EmailShape(s)
  {
    if EmailShape(s) {
      var i, j :| 1 <= i && i + 2 <= j && j + 2 <= |s| && s[i] == '@' && s[j] == '.';
      var f := FirstIndexFrom(s, '@', 1);
      assert f <= i;
      assert HasDotBetween(s, f + 2, |s| - 1);
    }
  }

  /** The shape read as a split: `s == a + "@" + b + "." + c`. */
  lemma EmailShapeSplit(s: string) returns (a: string, b: string, c: string)
    requires EmailShape(s)
    ensures |a| > 0 && |b| > 0 && |c| > 0 && s == a + "@" + b + "." + c
    ensures NoSpace(a) && NoSpace(b) && NoSpace(c)
  {
    var i, j :| 1 <= i && i + 2 <= j && j + 2 <= |s| && s[i] == '@' && s[j] == '.';
    a, b, c := s[..i], s[i + 1..j], s[j + 1..];
    var t := a + "@" + b + "." + c;
    assert |t| == |s|;
    forall k | 0 <= k < |s| ensures t[k] == s[k] {
      if k < i {
      } else if k == i {
      } else if k < j {
        assert t[k] == b[k - i - 1];
      } else if k == j {
      } else {
        assert t[k] == c[k - j - 1];
      }
    }
  }
}
