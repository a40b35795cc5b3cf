/**
 * The string operations the source relies on, stated as Python defines them:
 * `pat in s`, `s.lower()` / `s.upper()` (ASCII letters), `s.strip()`, `s.split(sep)`,
 * `int(s)` for decimal text, and zero-padded decimal formatting.
 */
module Strings {
  import opened Wrappers

  // ---------------------------------------------------------------- substrings

  predicate IsPrefix(p: string, s: string)
  {
    |p| <= |s| && s[..|p|] == p
  }

  /** Python's `pat in s`. */
  function Contains(s: string, pat: string): bool
    decreases |s|
  {
    IsPrefix(pat, s) || (|s| > 0 && Contains(s[1..], pat))
  }

  /** `pat` occurs in `s` starting at index `i`. */
  ghost predicate OccursAt(s: string, pat: string, i: int)
  {
    0 <= i && i + |pat| <= |s| && s[i..i + |pat|] == pat
  }

  /** The recursive search agrees with the definition by position, in both directions. */
  lemma ContainsIff(s: string, pat: string)
    ensures Contains(s, pat) <==> exists i :: OccursAt(s, pat, i)
  {
    if Contains(s, pat) {
      var i := ContainsWitness(s, pat);
    }
    forall i | OccursAt(s, pat, i)
      ensures Contains(s, pat)
    {
      ContainsAt(s, pat, i);
    }
  }

  /** Where the search succeeds, it has found an occurrence. */
  lemma {:induction false} ContainsWitness(s: string, pat: string) returns (i: int)
    requires Contains(s, pat)
    ensures OccursAt(s, pat, i)
    decreases |s|
  {
    if IsPrefix(pat, s) {
      i := 0;
    } else {
      var j := ContainsWitness(s[1..], pat);
      assert s[1..][j..j + |pat|] == s[j + 1..j + 1 + |pat|];
      i := j + 1;
    }
  }

  /** A witness position is enough to show containment. */
  lemma {:induction false} ContainsAt(s: string, pat: string, i: int)
    requires OccursAt(s, pat, i)
    ensures Contains(s, pat)
    decreases i
  {
    if i > 0 {
      assert s[1..][i - 1..i - 1 + |pat|] == s[i..i + |pat|];
      ContainsAt(s[1..], pat, i - 1);
    }
  }

  /** Nothing longer than `s` occurs in it. */
  lemma ContainsOnlyShorter(s: string, pat: string)
    requires |pat| > |s|
    ensures !Contains(s, pat)
  {
    ContainsIff(s, pat);
  }

  // ---------------------------------------------------------------- case mapping

  function LowerChar(c: char): char
  {
    if 'A' <= c <= 'Z' then (c as int + 32) as char else c
  }

  function UpperChar(c: char): char
  {
    if 'a' <= c <= 'z' then (c as int - 32) as char else c
  }

  /** `s.lower()` restricted to ASCII letters. */
  function Lower(s: string): (r: string)
    ensures |r| == |s|
    ensures forall i :: 0 <= i < |s| ==> r[i] == LowerChar(s[i])
  {
    seq(|s|, i requires 0 <= i < |s| => LowerChar(s[i]))
  }

  /** `s.upper()` restricted to ASCII letters. */
  function Upper(s: string): (r: string)
    ensures |r| == |s|
    ensures forall i :: 0 <= i < |s| ==> r[i] == UpperChar(s[i])
  {
    seq(|s|, i requires 0 <= i < |s| => UpperChar(s[i]))
  }

  /** Lower-casing forgets how the letters were cased: upper-casing first changes nothing. */
  lemma LowerOfUpper(s: string)
    ensures Lower(Upper(s)) == Lower(s)
  {
    assert forall i :: 0 <= i < |s| ==> LowerChar(UpperChar(s[i])) == LowerChar(s[i]);
  }

  /** Upper-casing forgets how the letters were cased: lower-casing first changes nothing. */
  lemma UpperOfLower(s: string)
    ensures Upper(Lower(s)) == Upper(s)
  {
    assert forall i :: 0 <= i < |s| ==> UpperChar(LowerChar(s[i])) == UpperChar(s[i]);
  }

  lemma LowerIdempotent(s: string)
    ensures Lower(Lower(s)) == Lower(s)
  {
    assert forall i :: 0 <= i < |s| ==> LowerChar(LowerChar(s[i])) == LowerChar(s[i]);
  }

  // ---------------------------------------------------------------- whitespace

  /** Python's `str.isspace()` for one character. */
  predicate IsSpace(c: char)
  {
    var n := c as int;
    (9 <= n <= 13) || (28 <= n <= 32) || n == 0x85 || n == 0xA0 || n == 0x1680
    || (0x2000 <= n <= 0x200A) || n == 0x2028 || n == 0x2029 || n == 0x202F
    || n == 0x205F || n == 0x3000
  }

  ghost predicate AllSpace(s: string)
  {
    forall i :: 0 <= i < |s| ==> IsSpace(s[i])
  }

  function StripStart(s: string): string
    decreases |s|
  {
    if |s| > 0 && IsSpace(s[0]) then StripStart(s[1..]) else s
  }

  function StripEnd(s: string): string
    decreases |s|
  {
    if |s| > 0 && IsSpace(s[|s| - 1]) then StripEnd(s[..|s| - 1]) else s
  }

  /** Python's `s.strip()`. */
  function Strip(s: string): string
  {
    StripEnd(StripStart(s))
  }

  lemma {:induction false} StripStartSpec(s: string)
    ensures var r := StripStart(s);
      |r| <= |s| && r == s[|s| - |r|..] && AllSpace(s[..|s| - |r|]) && (r == [] || !IsSpace(r[0]))
    decreases |s|
  {
    if |s| > 0 && IsSpace(s[0]) {
      StripStartSpec(s[1..]);
      var r := StripStart(s[1..]);
      assert s[1..][|s| - 1 - |r|..] == s[|s| - |r|..];
      assert forall i :: 0 <= i < |s| - |r| ==> i == 0 || s[i] == s[1..][..|s| - 1 - |r|][i - 1];
    }
  }

  lemma {:induction false} StripEndSpec(s: string)
    ensures var r := StripEnd(s);
      |r| <= |s| && r == s[..|r|] && AllSpace(s[|r|..]) && (r == [] || !IsSpace(r[|r| - 1]))
    decreases |s|
  {
    if |s| > 0 && IsSpace(s[|s| - 1]) {
      var t := s[..|s| - 1];
      StripEndSpec(t);
      var r := StripEnd(t);
      assert t[..|r|] == s[..|r|];
      assert forall i :: |r| <= i < |s| ==> i == |s| - 1 || s[i] == t[|r|..][i - |r|];
    }
  }

  /**
   * What `strip()` guarantees: the result neither starts nor ends with whitespace, and it is
   * empty exactly when the input was whitespace only.
   */
  lemma StripSpec(s: string)
    ensures var r := Strip(s);
      |r| <= |s| && (r == [] || (!IsSpace(r[0]) && !IsSpace(r[|r| - 1])))
      && (r == [] <==> AllSpace(s))
  {
    var m := StripStart(s);
    StripStartSpec(s);
    StripEndSpec(m);
    var r := StripEnd(m);
    if r != [] {
      assert r[0] == m[0];
    } else {
      assert forall i :: 0 <= i < |s| - |m| ==> s[i] == s[..|s| - |m|][i];
    }
  }

  /** A string that neither starts nor ends with whitespace is left as it is. */
  lemma StripUnchanged(s: string)
    requires s == [] || (!IsSpace(s[0]) && !IsSpace(s[|s| - 1]))
    ensures Strip(s) == s
  {
  }

  // ---------------------------------------------------------------- split and join

  /** Python's `s.split(sep)` for a one-character separator: empty fields are kept. */
  function Split(s: string, sep: char): (parts: seq<string>)
    ensures |parts| >= 1
    ensures forall p :: p in parts ==> sep !in p
    decreases |s|
  {
    if |s| == 0 then [""]
    else
      var rest := Split(s[1..], sep);
      if s[0] == sep then [""] + rest else [[s[0]] + rest[0]] + rest[1..]
  }

  /** `sep.join(parts)`. */
  function Join(parts: seq<string>, sep: char): string
    requires |parts| >= 1
    decreases |parts|
  {
    if |parts| == 1 then parts[0] else parts[0] + [sep] + Join(parts[1..], sep)
  }

  /** Splitting loses nothing: joining the fields back gives the input. */
  lemma {:induction false} JoinSplit(s: string, sep: char)
    ensures Join(Split(s, sep), sep) == s
    decreases |s|
  {
    if |s| > 0 {
      JoinSplit(s[1..], sep);
      var rest := Split(s[1..], sep);
      if s[0] == sep {
        assert Split(s, sep)[1..] == rest;
      } else if |rest| == 1 {
        assert [s[0]] + rest[0] == s;
      } else {
        assert Split(s, sep)[1..] == rest[1..];
        assert Join(rest, sep) == rest[0] + [sep] + Join(rest[1..], sep);
      }
    }
  }

  /** Splitting one field that holds no separator, followed by the rest. */
  lemma {:induction false} SplitField(p: string, tail: string, sep: char)
    requires sep !in p
    ensures Split(p + [sep] + tail, sep) == [p] + Split(tail, sep)
    decreases |p|
  {
    if |p| == 0 {
      assert p + [sep] + tail == [sep] + tail;
      assert ([sep] + tail)[1..] == tail;
    } else {
      SplitField(p[1..], tail, sep);
      assert (p + [sep] + tail)[1..] == p[1..] + [sep] + tail;
      assert [p[0]] + p[1..] == p;
    }
  }

  /** Joining fields that hold no separator and splitting again gives the fields back. */
  lemma {:induction false} SplitJoin(parts: seq<string>, sep: char)
    requires |parts| >= 1
    requires forall p :: p in parts ==> sep !in p
    ensures Split(Join(parts, sep), sep) == parts
    decreases |parts|
  {
    if |parts| == 1 {
      SplitNoSeparator(parts[0], sep);
    } else {
      SplitJoin(parts[1..], sep);
      SplitField(parts[0], Join(parts[1..], sep), sep);
    }
  }

  /** Without a separator, `split` returns the whole string as the only field. */
  lemma {:induction false} SplitNoSeparator(s: string, sep: char)
    requires sep !in s
    ensures Split(s, sep) == [s]
    decreases |s|
  {
    if |s| > 0 {
      SplitNoSeparator(s[1..], sep);
      assert [s[0]] + s[1..] == s;
    }
  }

  // ---------------------------------------------------------------- decimal numbers

  predicate IsDigit(c: char)
  {
    '0' <= c <= '9'
  }

  predicate AllDigits(s: string)
  {
    forall i :: 0 <= i < |s| ==> IsDigit(s[i])
  }

  /** The value of a string of decimal digits, most significant first. */
  function DigitsValue(s: string): nat
    requires AllDigits(s)
    decreases |s|
  {
    if |s| == 0 then 0 else DigitsValue(s[..|s| - 1]) * 10 + (s[|s| - 1] as int - '0' as int)
  }

  /**
   * Python's `int(s)` for base-10 text: surrounding whitespace is ignored, one optional sign,
   * then at least one ASCII digit; anything else raises, modelled as None.
   */
  function ParseInt(s: string): (r: Option<int>)
  {
    var t := Strip(s);
    if |t| > 0 && (t[0] == '+' || t[0] == '-') then
      var body := t[1..];
      if |body| > 0 && AllDigits(body) then
        var v: int := DigitsValue(body);
        Some(if t[0] == '-' then -v else v)
      else None
    else if |t| > 0 && AllDigits(t) then Some(DigitsValue(t))
    else None
  }

  /** A non-empty digit string reads back as its value. */
  lemma ParseDigits(s: string)
    requires |s| > 0 && AllDigits(s)
    ensures ParseInt(s) == Some(DigitsValue(s))
  {
    assert !IsSpace(s[0]) && !IsSpace(s[|s| - 1]);
    StripUnchanged(s);
  }

  function DigitChar(d: nat): char
    requires d < 10
  {
    ('0' as int + d) as char
  }

  /** `n` written in decimal with no leading zeros. */
  function ShowNat(n: nat): (r: string)
    ensures |r| > 0 && AllDigits(r)
    decreases n
  {
    if n < 10 then [DigitChar(n)] else ShowNat(n / 10) + [DigitChar(n % 10)]
  }

  /** Python's `str(n)` for an integer. */
  function ShowInt(n: int): string
  {
    if n < 0 then "-" + ShowNat(-n) else ShowNat(n)
  }

  lemma {:induction false} ShowNatValue(n: nat)
    ensures DigitsValue(ShowNat(n)) == n
    decreases n
  {
    if n >= 10 {
      ShowNatValue(n / 10);
      var s := ShowNat(n);
      assert s[..|s| - 1] == ShowNat(n / 10);
    }
  }

  /** Decimal formatting and `int()` are inverse. */
  lemma ParseShowNat(n: nat)
    ensures ParseInt(ShowNat(n)) == Some(n)
  {
    ShowNatValue(n);
    ParseDigits(ShowNat(n));
  }

  /** `n` zero-padded to `width` digits, as `%0<width>d` writes it for `n < 10^width`. */
  function Pad(n: nat, width: nat): (r: string)
    ensures |r| == width && AllDigits(r)
    decreases width
  {
    if width == 0 then "" else Pad(n / 10, width - 1) + [DigitChar(n % 10)]
  }

  function Pow10(k: nat): nat
  {
    if k == 0 then 1 else 10 * Pow10(k - 1)
  }

  /** A padded number reads back as its value whenever it fits in the width. */
  lemma {:induction false} PadValue(n: nat, width: nat)
    requires n < Pow10(width)
    ensures DigitsValue(Pad(n, width)) == n
    decreases width
  {
    if width > 0 {
      PadValue(n / 10, width - 1);
      var s := Pad(n, width);
      assert s[..|s| - 1] == Pad(n / 10, width - 1);
    }
  }
}
