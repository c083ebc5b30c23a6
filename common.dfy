/** Values and string operations that every part of the front end shares: JavaScript's
    `null`/`undefined` as `Option`, an awaited remote call that may throw, and the
    handful of `String.prototype` operations the components rely on (`trim`,
    `toUpperCase`, `toLowerCase`, `includes`, `startsWith`). */
module Common {

  datatype Option<+T> = None | Some(value: T)

  /** What a `catch (e)` block receives: an `Error` object with its message, or any other
      thrown value. */
  datatype Thrown = ErrorObject(message: string) | OtherValue

  /** The settled outcome of an awaited remote call. */
  datatype Remote<+T> = Ok(value: T) | Threw(error: Thrown)

  /** The idiom `e instanceof Error ? e.message : fallback`. */
  function MessageOr(e: Thrown, fallback: string): string
  {
    if e.ErrorObject? then e.message else fallback
  }

  /** The characters that `String.prototype.trim` strips and that the regular-expression
      class `\s` matches: ECMAScript WhiteSpace and LineTerminator. */
  predicate IsSpace(c: char)
  {
    c == '\t' || c == '\n' || c == '\U{0B}' || c == '\U{0C}' || c == '\r' || c == ' '
    || c == '\U{A0}' || c == '\U{1680}' || ('\U{2000}' <= c <= '\U{200A}')
    || c == '\U{2028}' || c == '\U{2029}' || c == '\U{202F}' || c == '\U{205F}'
    || c == '\U{3000}' || c == '\U{FEFF}'
  }

  ghost predicate AllSpace(s: string)
  {
    forall i :: 0 <= i < |s| ==> IsSpace(s[i])
  }

  function TrimStart(s: string): string
  {
    if |s| > 0 && IsSpace(s[0]) then TrimStart(s[1..]) else s
  }

  function TrimEnd(s: string): string
  {
    if |s| > 0 && IsSpace(s[|s| - 1]) then TrimEnd(s[..|s| - 1]) else s
  }

  /** `s.trim()` */
  function Trim(s: string): string
  {
    TrimEnd(TrimStart(s))
  }

  /** `!s.trim()`: the string is empty once trimmed. */
  predicate IsBlank(s: string)
  {
    Trim(s) == []
  }

  lemma AllSpaceConcat(a: string, b: string)
    ensures AllSpace(a + b) <==> AllSpace(a) && AllSpace(b)
  {
    if AllSpace(a + b) {
      forall i | 0 <= i < |a| ensures IsSpace(a[i]) { assert (a + b)[i] == a[i]; }
      forall i | 0 <= i < |b| ensures IsSpace(b[i]) { assert (a + b)[|a| + i] == b[i]; }
    }
    if AllSpace(a) && AllSpace(b) {
      forall i | 0 <= i < |a + b| ensures IsSpace((a + b)[i]) {
        if i < |a| { assert (a + b)[i] == a[i]; } else { assert (a + b)[i] == b[i - |a|]; }
      }
    }
  }

  /** The length of the leading run of white space. */
  function LeadingSpaces(s: string): (k: nat)
    ensures k <= |s|
  {
    if |s| > 0 && IsSpace(s[0]) then 1 + LeadingSpaces(s[1..]) else 0
  }

  /** TrimStart drops a leading run of white space and nothing else. */
  lemma {:induction false} TrimStartIsSuffix(s: string)
    ensures TrimStart(s) == s[LeadingSpaces(s)..] && AllSpace(s[..LeadingSpaces(s)])
    ensures TrimStart(s) != [] ==> !IsSpace(TrimStart(s)[0])
  {
    if |s| > 0 && IsSpace(s[0]) {
      var t := s[1..];
      TrimStartIsSuffix(t);
      var k := LeadingSpaces(t);
      assert t[k..] == s[k + 1..];
      assert s[..k + 1] == [s[0]] + t[..k];
      AllSpaceConcat([s[0]], t[..k]);
    } else {
      assert s[0..] == s && s[..0] == [];
    }
  }

  /** TrimEnd drops a trailing run of white space and nothing else. */
  lemma {:induction false} TrimEndIsPrefix(s: string)
    ensures exists k :: 0 <= k <= |s| && TrimEnd(s) == s[..k] && AllSpace(s[k..])
    ensures TrimEnd(s) != [] ==> !IsSpace(TrimEnd(s)[|TrimEnd(s)| - 1])
  {
    if |s| > 0 && IsSpace(s[|s| - 1]) {
      var t := s[..|s| - 1];
      TrimEndIsPrefix(t);
      var k :| 0 <= k <= |t| && TrimEnd(t) == t[..k] && AllSpace(t[k..]);
      assert TrimEnd(s) == s[..k];
      assert s[k..] == t[k..] + [s[|s| - 1]];
      AllSpaceConcat(t[k..], [s[|s| - 1]]);
    } else {
      assert TrimEnd(s) == s[..|s|] && s[|s|..] == [];
    }
  }

  lemma {:induction false} TrimStartBlank(s: string)
    ensures TrimStart(s) == [] <==> AllSpace(s)
  {
    if |s| > 0 && IsSpace(s[0]) {
      TrimStartBlank(s[1..]);
      assert s == [s[0]] + s[1..];
      AllSpaceConcat([s[0]], s[1..]);
    }
  }

  lemma {:induction false} TrimEndKeepsFirst(t: string)
    requires t != [] && !IsSpace(t[0])
    ensures TrimEnd(t) != []
  {
    if |t| > 1 && IsSpace(t[|t| - 1]) {
      TrimEndKeepsFirst(t[..|t| - 1]);
    }
  }

  /** A string trims to nothing exactly when it is all white space. */
  lemma BlankIffAllSpace(s: string)
    ensures IsBlank(s) <==> AllSpace(s)
  {
    TrimStartBlank(s);
    TrimStartIsSuffix(s);
    if TrimStart(s) != [] {
      TrimEndKeepsFirst(TrimStart(s));
    }
  }

  function UpperChar(c: char): char
  {
    if 'a' <= c <= 'z' then (c as int - 32) as char else c
  }

  function LowerChar(c: char): char
  {
    if 'A' <= c <= 'Z' then (c as int + 32) as char else c
  }

  /** `s.toUpperCase()`, restricted to the ASCII letters. */
  function Upper(s: string): (r: string)
    ensures |r| == |s|
  {
    seq(|s|, i requires 0 <= i < |s| => UpperChar(s[i]))
  }

  /** `s.toLowerCase()`, restricted to the ASCII letters. */
  function Lower(s: string): (r: string)
    ensures |r| == |s|
  {
    seq(|s|, i requires 0 <= i < |s| => LowerChar(s[i]))
  }

  /** `s.includes(part)` */
  function Contains(s: string, part: string): bool
  {
    if part <= s then true
    else if s == [] then false
    else Contains(s[1..], part)
  }

  /** `part` occurs in `s` starting at index `i`. */
  ghost predicate OccursAt(s: string, part: string, i: int)
  {
    0 <= i <= |s| - |part| && s[i..i + |part|] == part
  }

  /** `includes` agrees with the textbook definition: the part occurs at some position. */
  lemma {:induction false} ContainsIffOccurs(s: string, part: string)
    ensures Contains(s, part) <==> exists i :: OccursAt(s, part, i)
  {
    if part <= s {
      assert OccursAt(s, part, 0);
    } else if s != [] {
      ContainsIffOccurs(s[1..], part);
      if exists i :: OccursAt(s, part, i) {
        var i :| OccursAt(s, part, i);
        assert i != 0;
        assert OccursAt(s[1..], part, i - 1) by {
          assert s[1..][i - 1..i - 1 + |part|] == s[i..i + |part|];
        }
      }
      if Contains(s[1..], part) {
        var i :| OccursAt(s[1..], part, i);
        assert OccursAt(s, part, i + 1) by {
          assert s[1..][i..i + |part|] == s[i + 1..i + 1 + |part|];
        }
      }
    }
  }

  /** Whatever contains a string contains each of its prefixes. */
  lemma {:induction false} ContainsPrefix(s: string, part: string, more: string)
    ensures Contains(s, part + more) ==> Contains(s, part)
  {
    if part + more <= s {
      assert part <= s by { assert (part + more)[..|part|] == part; }
    } else if s != [] {
      ContainsPrefix(s[1..], part, more);
    }
  }

  /** A JavaScript number as the components use it: an integer or NaN. */
  datatype JsNumber = Finite(value: int) | NaN

  predicate IsDigit(c: char)
  {
    '0' <= c <= '9'
  }

  predicate AllDigits(s: string)
  {
    forall i :: 0 <= i < |s| ==> IsDigit(s[i])
  }

  /** The value of a string of decimal digits. */
  function DigitsValue(s: string): (n: nat)
    requires AllDigits(s)
  {
    if s == [] then 0 else 10 * DigitsValue(s[..|s| - 1]) + (s[|s| - 1] as int - '0' as int)
  }

  /** `Number(text)` for the inputs the components pass it: white space around an
      optionally signed run of decimal digits; a blank string is 0 and anything else NaN. */
  function ParseNumber(text: string): (r: JsNumber)
    ensures IsBlank(text) ==> r == Finite(0)
  {
    var t := Trim(text);
    if t == [] then Finite(0)
    else if AllDigits(t) then Finite(DigitsValue(t))
    else if (t[0] == '-' || t[0] == '+') && |t| > 1 && AllDigits(t[1..])
    then
      var v: int := DigitsValue(t[1..]);
      Finite(if t[0] == '-' then -v else v)
    else NaN
  }

  function DigitChar(d: nat): (c: char)
    requires d < 10
    ensures IsDigit(c) && c as int - '0' as int == d
  {
    ('0' as int + d) as char
  }

  /** The decimal rendering of a natural number, as a template literal prints it. */
  function NatToString(n: nat): (s: string)
    ensures s != [] && AllDigits(s)
    ensures DigitsValue(s) == n
  {
    if n < 10 then [DigitChar(n)]
    else
      var r := NatToString(n / 10) + [DigitChar(n % 10)];
      assert r[..|r| - 1] == NatToString(n / 10);
      r
  }

  lemma {:induction false} DigitsAreNotSpace(s: string)
    requires AllDigits(s)
    ensures Trim(s) == s
  {
    assert TrimStart(s) == s;
    assert TrimEnd(s) == s;
  }

  /** Printing a natural number and parsing it back gives the number. */
  lemma ParseNatToString(n: nat)
    ensures ParseNumber(NatToString(n)) == Finite(n)
  {
    DigitsAreNotSpace(NatToString(n));
  }
}
