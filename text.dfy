/**
 * The parts of the Kotlin standard library that the update pipeline relies on:
 * `Char.isWhitespace`, `isBlank`, `trim`, `uppercase`, `split(",")` and
 * `toLongOrNull`, written out over `string` (a `seq<char>`).
 */
module Text {
  import opened Optional

  // ---------------------------------------------------------------------------
  // Whitespace, blankness and trimming
  // ---------------------------------------------------------------------------

  /** Kotlin's `Char.isWhitespace`: the Unicode space separators, the line and
      paragraph separators, and the control characters TAB..CR and FS..US. */
  predicate IsWhitespace(c: char) {
    || c == ' '
    || ('\t' <= c <= '\r')
    || ('\U{1C}' <= c <= '\U{1F}')
    || c == '\U{A0}' || c == '\U{1680}'
    || ('\U{2000}' <= c <= '\U{200A}')
    || c == '\U{2028}' || c == '\U{2029}' || c == '\U{202F}' || c == '\U{205F}' || c == '\U{3000}'
  }

  /** `CharSequence.isBlank`: empty, or made only of whitespace. */
  predicate IsBlank(s: string) {
    forall i :: 0 <= i < |s| ==> IsWhitespace(s[i])
  }

  /** Drops the leading whitespace. */
  function TrimStart(s: string): (r: string)
    ensures |r| <= |s|
  {
    if |s| > 0 && IsWhitespace(s[0]) then TrimStart(s[1..]) else s
  }

  /** Drops the trailing whitespace. */
  function TrimEnd(s: string): (r: string)
    ensures |r| <= |s|
  {
    if |s| > 0 && IsWhitespace(s[|s| - 1]) then TrimEnd(s[..|s| - 1]) else s
  }

  /** TrimStart keeps a suffix that does not start with whitespace, and
      what it drops is whitespace. */
  lemma {:induction false} TrimStartFacts(s: string)
    ensures var r := TrimStart(s);
      && |r| <= |s| && r == s[|s| - |r|..]
      && (r == [] || !IsWhitespace(r[0]))
      && IsBlank(s[..|s| - |r|])
    decreases |s|
  {
    if |s| > 0 && IsWhitespace(s[0]) {
      var r := TrimStart(s[1..]);
      TrimStartFacts(s[1..]);
      assert s[1..][..|s| - 1 - |r|] == s[1..|s| - |r|];
      assert s[..|s| - |r|] == [s[0]] + s[1..|s| - |r|];
    }
  }

  /** TrimEnd keeps a prefix that does not end with whitespace, and what it
      drops is whitespace. */
  lemma {:induction false} TrimEndFacts(s: string)
    ensures var r := TrimEnd(s);
      && |r| <= |s| && r == s[..|r|]
      && (r == [] || !IsWhitespace(r[|r| - 1]))
      && IsBlank(s[|r|..])
    decreases |s|
  {
    if |s| > 0 && IsWhitespace(s[|s| - 1]) {
      var r := TrimEnd(s[..|s| - 1]);
      TrimEndFacts(s[..|s| - 1]);
      assert s[..|s| - 1][..|r|] == s[..|r|];
      assert s[|r|..] == s[..|s| - 1][|r|..] + [s[|s| - 1]];
    }
  }

  /** Kotlin's `String.trim()`. */
  function Trim(s: string): string {
    TrimEnd(TrimStart(s))
  }

  /** Trim keeps the longest infix of `s` that neither starts nor ends with
      whitespace; everything it cuts off is whitespace. */
  lemma TrimSpec(s: string)
    ensures var r := Trim(s);
      var lead := |s| - |TrimStart(s)|;
      && lead + |r| <= |s|
      && r == s[lead..lead + |r|]
      && IsBlank(s[..lead]) && IsBlank(s[lead + |r|..])
      && (r == [] || (!IsWhitespace(r[0]) && !IsWhitespace(r[|r| - 1])))
  {
    var t := TrimStart(s);
    var r := TrimEnd(t);
    var lead := |s| - |t|;
    TrimStartFacts(s);
    TrimEndFacts(t);
    assert t == s[lead..];
    assert r == t[..|r|] == s[lead..lead + |r|];
    assert s[lead + |r|..] == t[|r|..];
    if r != [] {
      assert r[0] == t[0];
    }
  }

  /** A string that neither starts nor ends with whitespace is its own trim. */
  lemma TrimOfUnpadded(s: string)
    requires s == [] || (!IsWhitespace(s[0]) && !IsWhitespace(s[|s| - 1]))
    ensures Trim(s) == s
  {
    assert TrimStart(s) == s;
    assert TrimEnd(s) == s;
  }

  /** What `trim` removes is whitespace only, so a string is blank exactly
      when trimming it leaves nothing. */
  lemma TrimEmptyIffBlank(s: string)
    ensures Trim(s) == [] <==> IsBlank(s)
  {
    var t := TrimStart(s);
    var lead := |s| - |t|;
    TrimSpec(s);
    if IsBlank(s) {
      TrimStartFacts(s);
      assert IsBlank(t);
    } else if Trim(s) == [] {
      assert IsBlank(s[..lead]) && IsBlank(s[lead..]);
      forall i | 0 <= i < |s| ensures IsWhitespace(s[i]) {
        if i < lead {
          assert s[i] == s[..lead][i];
        } else {
          assert s[i] == s[lead..][i - lead];
        }
      }
      assert false;
    }
  }

  /** Trimming does not change whether a field is blank, so `x.trim().isNotBlank()`
      and `x.isNotBlank()` agree. */
  lemma TrimKeepsBlankness(s: string)
    ensures IsBlank(Trim(s)) <==> IsBlank(s)
  {
    TrimEmptyIffBlank(s);
    TrimSpec(s);
  }

  /** Trimming twice is trimming once. */
  lemma TrimIdempotent(s: string)
    ensures Trim(Trim(s)) == Trim(s)
  {
    TrimSpec(s);
    TrimOfUnpadded(Trim(s));
  }

  /** `CharSequence.contains(other)`: `t` occurs in `s` as a contiguous piece. */
  predicate Contains(s: string, t: string) {
    exists i :: 0 <= i <= |s| && OccursAt(s, t, i)
  }

  predicate OccursAt(s: string, t: string, i: int) {
    0 <= i <= |s| - |t| && s[i..i + |t|] == t
  }

  /** A string occurs at the end of any string it is appended to. */
  lemma ContainsAtEnd(a: string, b: string)
    ensures Contains(a + b, b)
  {
    assert (a + b)[|a|..|a| + |b|] == b;
    assert OccursAt(a + b, b, |a|);
  }

  /** What occurs in a string still occurs once more is appended. */
  lemma ContainsExtended(a: string, b: string, t: string)
    requires Contains(a, t)
    ensures Contains(a + b, t)
  {
    var i :| 0 <= i <= |a| && OccursAt(a, t, i);
    assert (a + b)[i..i + |t|] == a[i..i + |t|];
    assert OccursAt(a + b, t, i);
  }

  // ---------------------------------------------------------------------------
  // Upper-casing
  // ---------------------------------------------------------------------------

  /** `Char.uppercaseChar` restricted to the ASCII letters. */
  function UpperChar(c: char): (u: char)
    ensures 'a' <= c <= 'z' ==> u as int == c as int - 32
    ensures !('a' <= c <= 'z') ==> u == c
  {
    if 'a' <= c <= 'z' then (c as int - 32) as char else c
  }

  /** `String.uppercase()`: every character upper-cased, length and order kept. */
  function Uppercase(s: string): (r: string)
    ensures |r| == |s|
    ensures forall i :: 0 <= i < |s| ==> r[i] == UpperChar(s[i])
  {
    seq(|s|, i requires 0 <= i < |s| => UpperChar(s[i]))
  }

  /** Two characters that are the same, or the lower- and upper-case forms
      of one ASCII letter. */
  predicate SameLetterIgnoringCase(x: char, y: char) {
    || x == y
    || ('a' <= x <= 'z' && y as int == x as int - 32)
    || ('a' <= y <= 'z' && x as int == y as int - 32)
  }

  /** Two strings that differ only in the case of their letters. */
  predicate EqualIgnoringCase(a: string, b: string) {
    |a| == |b| && forall i :: 0 <= i < |a| ==> SameLetterIgnoringCase(a[i], b[i])
  }

  /** Two characters upper-case alike exactly when they are the same letter
      up to case. */
  lemma UpperCharIdentifiesCaseVariants(x: char, y: char)
    ensures UpperChar(x) == UpperChar(y) <==> SameLetterIgnoringCase(x, y)
  {
  }

  /** Upper-casing is idempotent. */
  lemma UppercaseIdempotent(s: string)
    ensures Uppercase(Uppercase(s)) == Uppercase(s)
  {
  }

  /** Upper-casing identifies exactly the strings equal up to letter case. */
  lemma UppercaseIdentifiesCaseVariants(a: string, b: string)
    ensures Uppercase(a) == Uppercase(b) <==> EqualIgnoringCase(a, b)
  {
    if Uppercase(a) == Uppercase(b) {
      forall i | 0 <= i < |a| ensures SameLetterIgnoringCase(a[i], b[i]) {
        assert Uppercase(a)[i] == Uppercase(b)[i];
        UpperCharIdentifiesCaseVariants(a[i], b[i]);
      }
    }
    if EqualIgnoringCase(a, b) {
      forall i | 0 <= i < |a| ensures Uppercase(a)[i] == Uppercase(b)[i] {
        UpperCharIdentifiesCaseVariants(a[i], b[i]);
      }
    }
  }

  /** A string with no lower-case ASCII letter is its own upper-case form. */
  lemma UppercaseOfUpper(s: string)
    requires forall i :: 0 <= i < |s| ==> !('a' <= s[i] <= 'z')
    ensures Uppercase(s) == s
  {
  }

  // ---------------------------------------------------------------------------
  // Splitting on a delimiter
  // ---------------------------------------------------------------------------

  /** `split(sep)` with a one-character delimiter and no limit: every field,
      including empty leading and trailing ones, in order. */
  function Split(s: string, sep: char): (parts: seq<string>)
    ensures |parts| >= 1
    ensures forall k :: 0 <= k < |parts| ==> sep !in parts[k]
    decreases |s|
  {
    if |s| == 0 then [""]
    else
      var rest := Split(s[1..], sep);
      if s[0] == sep then [""] + rest
      else [[s[0]] + rest[0]] + rest[1..]
  }

  /** The inverse of Split: the fields glued back with the delimiter between them. */
  function Join(parts: seq<string>, sep: char): (s: string)
    requires |parts| >= 1
  {
    if |parts| == 1 then parts[0] else parts[0] + [sep] + Join(parts[1..], sep)
  }

  /** Joining the fields of a split gives back the original string. */
  lemma {:induction false} JoinSplit(s: string, sep: char)
    ensures Join(Split(s, sep), sep) == s
    decreases |s|
  {
    if |s| > 0 {
      var rest := Split(s[1..], sep);
      JoinSplit(s[1..], sep);
      if s[0] != sep {
        if |rest| == 1 {
          assert s == [s[0]] + s[1..];
        } else {
          assert Split(s, sep)[1..] == rest[1..];
          assert s == [s[0]] + s[1..];
        }
      }
    }
  }

  /** Split of a string with one more character in front. */
  lemma SplitCons(c: char, s: string, sep: char)
    ensures c == sep ==> Split([c] + s, sep) == [""] + Split(s, sep)
    ensures c != sep ==> Split([c] + s, sep) == [[c] + Split(s, sep)[0]] + Split(s, sep)[1..]
  {
    assert ([c] + s)[1..] == s;
  }

  /** Join of fields whose first field is not empty starts with that
      field's first character. */
  lemma JoinCons(parts: seq<string>, sep: char)
    requires |parts| >= 1 && |parts[0]| > 0
    ensures Join(parts, sep) == [parts[0][0]] + Join([parts[0][1..]] + parts[1..], sep)
  {
    var p0 := parts[0];
    var shorter := [p0[1..]] + parts[1..];
    assert p0 == [p0[0]] + p0[1..];
    if |parts| > 1 {
      assert shorter[1..] == parts[1..];
    }
  }

  /** Splitting fields glued with a delimiter that none of them contains gives
      the fields back: the two directions of the round trip. */
  lemma {:induction false} SplitJoin(parts: seq<string>, sep: char)
    requires |parts| >= 1
    requires forall k :: 0 <= k < |parts| ==> sep !in parts[k]
    ensures Split(Join(parts, sep), sep) == parts
    decreases |parts|, |parts[0]|
  {
    var p0 := parts[0];
    if |p0| == 0 {
      if |parts| > 1 {
        var rest := parts[1..];
        assert Join(parts, sep) == [sep] + Join(rest, sep);
        SplitJoin(rest, sep);
        SplitCons(sep, Join(rest, sep), sep);
        assert parts == [""] + rest;
      }
    } else {
      var shorter := [p0[1..]] + parts[1..];
      assert forall k :: 0 <= k < |shorter| ==> sep !in shorter[k] by {
        forall k | 0 <= k < |shorter| ensures sep !in shorter[k] {
          if k == 0 {
            assert forall c :: c in p0[1..] ==> c in p0;
          } else {
            assert shorter[k] == parts[k];
          }
        }
      }
      SplitJoin(shorter, sep);
      JoinCons(parts, sep);
      assert p0[0] != sep by {
        assert p0[0] in p0;
      }
      SplitCons(p0[0], Join(shorter, sep), sep);
      assert [p0[0]] + shorter[0] == p0;
      assert shorter[1..] == parts[1..];
      assert parts == [p0] + parts[1..];
    }
  }

  // ---------------------------------------------------------------------------
  // Decimal numbers
  // ---------------------------------------------------------------------------

  const LONG_MIN: int := -0x8000_0000_0000_0000
  const LONG_MAX: int := 0x7FFF_FFFF_FFFF_FFFF

  /** The range of Kotlin's 64-bit `Long`. */
  predicate IsLong(n: int) {
    LONG_MIN <= n <= LONG_MAX
  }

  predicate IsDigit(c: char) {
    '0' <= c <= '9'
  }

  predicate AllDigits(s: string) {
    forall i :: 0 <= i < |s| ==> IsDigit(s[i])
  }

  /** The value of a string of decimal digits, most significant first. */
  function DigitsValue(s: string): nat
    requires AllDigits(s)
  {
    if s == [] then 0 else DigitsValue(s[..|s| - 1]) * 10 + (s[|s| - 1] as int - '0' as int)
  }

  /** Kotlin's `String.toLongOrNull()` in radix 10: an optional `+` or `-`,
      then at least one digit, and a value that fits in a `Long`. */
  function ParseLong(s: string): (r: Option<int>)
    ensures r.Some? ==> IsLong(r.value)
    ensures r.Some? ==> |s| > 0
  {
    if |s| == 0 then None
    else if s[0] == '-' || s[0] == '+' then
      if |s| == 1 || !AllDigits(s[1..]) then None
      else
        var v: int := if s[0] == '-' then -(DigitsValue(s[1..]) as int) else DigitsValue(s[1..]);
        if IsLong(v) then Some(v) else None
    else if AllDigits(s) && IsLong(DigitsValue(s)) then Some(DigitsValue(s))
    else None
  }

  /** An optional sign: nothing, `+` or `-`. */
  predicate IsSign(sign: string) {
    sign == "" || sign == "+" || sign == "-"
  }

  /** The value a sign and a digit string stand for. */
  function SignedValue(sign: string, digits: string): int
    requires AllDigits(digits)
  {
    if sign == "-" then -(DigitsValue(digits) as int) else DigitsValue(digits)
  }

  /** `toLongOrNull` yields `n` exactly when the string is an optional sign
      followed by at least one digit, the sign and digits stand for `n`, and
      `n` fits in a `Long`; every other string yields nothing. So "+5" is 5,
      "007" is 7 and "-0" is 0, while "", "+", "1_000" and " 1" yield nothing. */
  lemma ParseLongExact(s: string, n: int)
    ensures ParseLong(s) == Some(n) <==>
      exists k :: 0 <= k <= 1 && k < |s| && IsSign(s[..k]) && AllDigits(s[k..])
                  && n == SignedValue(s[..k], s[k..]) && IsLong(n)
  {
    if ParseLong(s) == Some(n) {
      var k := if s[0] == '-' || s[0] == '+' then 1 else 0;
      assert s[..k] == (if k == 0 then "" else [s[0]]);
      assert s[k..] == (if k == 0 then s else s[1..]);
      assert IsSign(s[..k]) && AllDigits(s[k..]) && n == SignedValue(s[..k], s[k..]);
    }
    if exists k :: 0 <= k <= 1 && k < |s| && IsSign(s[..k]) && AllDigits(s[k..])
                   && n == SignedValue(s[..k], s[k..]) && IsLong(n) {
      var k :| 0 <= k <= 1 && k < |s| && IsSign(s[..k]) && AllDigits(s[k..])
               && n == SignedValue(s[..k], s[k..]) && IsLong(n);
      if k == 0 {
        assert s[k..] == s && s[..k] == "";
        assert IsDigit(s[0]);
      } else {
        assert s[..k] == [s[0]];
        assert s[k..] == s[1..];
      }
    }
  }

  /** Signs and leading zeros are accepted, and a string with no digit,
      an underscore or surrounding space is not. */
  lemma ParseLongExamples()
    ensures ParseLong("+5") == Some(5)
    ensures ParseLong("007") == Some(7)
    ensures ParseLong("-0") == Some(0)
    ensures ParseLong("") == None && ParseLong("+") == None
    ensures ParseLong("1_0") == None && ParseLong(" 1") == None
  {
    assert "+5"[1..] == "5";
    assert "-0"[1..] == "0";
    assert "007"[..2] == "00" && "00"[..1] == "0";
    assert !IsDigit("1_0"[1]);
  }

  /** `toLongOrNull` applied to a nullable string, as in `otherInfo?.toLongOrNull()`. */
  function ParseOptLong(s: Option<string>): (r: Option<int>)
    ensures s.None? ==> r.None?
    ensures s.Some? ==> r == ParseLong(s.value)
  {
    match s
    case None => None
    case Some(t) => ParseLong(t)
  }

  /** The decimal digits of a natural number, without leading zeros. */
  function ShowNat(n: nat): (s: string)
    ensures |s| >= 1 && AllDigits(s)
  {
    if n < 10 then [('0' as int + n) as char]
    else ShowNat(n / 10) + [('0' as int + n % 10) as char]
  }

  /** `Long.toString()`: a minus sign for negative numbers, then the digits. */
  function ShowInt(n: int): (s: string)
    ensures |s| >= 1
  {
    if n < 0 then "-" + ShowNat(-n) else ShowNat(n)
  }

  lemma {:induction false} DigitsOfShowNat(n: nat)
    ensures DigitsValue(ShowNat(n)) == n
  {
    if n >= 10 {
      DigitsOfShowNat(n / 10);
      var s := ShowNat(n);
      assert s[..|s| - 1] == ShowNat(n / 10);
    }
  }

  /** Every `Long` written in decimal parses back to itself. */
  lemma ParseShowRoundTrip(n: int)
    requires IsLong(n)
    ensures ParseLong(ShowInt(n)) == Some(n)
  {
    if n < 0 {
      DigitsOfShowNat(-n);
      assert ShowInt(n)[1..] == ShowNat(-n);
    } else {
      DigitsOfShowNat(n);
    }
  }
}
