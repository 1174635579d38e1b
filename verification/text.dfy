/** String operations the client relies on: ASCII case folding and
    `includes` for searches, `split('T')[0]` on ISO 8601 date-times,
    `toString()`/`parseInt` on numeric ids, and `split(' ')` for initials. */
module Text {
  import opened Lists

  /** `toLowerCase()` on one character, restricted to ASCII letters. */
  function LowerChar(c: char): char
  {
    if 'A' <= c <= 'Z' then (c as int + 32) as char else c
  }

  function Lower(s: string): (r: string)
    ensures |r| == |s|
    ensures forall i :: 0 <= i < |s| ==> r[i] == LowerChar(s[i])
  {
    if s == [] then [] else [LowerChar(s[0])] + Lower(s[1..])
  }

  /** `s.includes(q)`: `q` is a prefix of `s` or of one of its suffixes. */
  predicate Contains(s: string, q: string)
  {
    q <= s || (s != [] && Contains(s[1..], q))
  }

  /** `s.toLowerCase().includes(q.toLowerCase())`. */
  predicate IncludesIgnoreCase(s: string, q: string)
  {
    Contains(Lower(s), Lower(q))
  }

  /** Every string includes the empty string, whatever its case. */
  lemma EmptyQueryMatches(s: string)
    ensures IncludesIgnoreCase(s, "")
  {
  }

  /** `s.split('T')[0]`: the date part of an ISO 8601 date-time
      (section 5.6 of RFC 3339), i.e. everything before the first 'T'. */
  function DatePart(s: string): (r: string)
    ensures r <= s
    ensures 'T' !in r
    ensures |r| < |s| ==> s[|r|] == 'T'
  {
    if s == [] || s[0] == 'T' then [] else [s[0]] + DatePart(s[1..])
  }

  /** A string without 'T' (a plain calendar date) is its own date part. */
  lemma {:induction false} DatePartOfDate(s: string)
    requires 'T' !in s
    ensures DatePart(s) == s
  {
    if s != [] {
      DatePartOfDate(s[1..]);
    }
  }

  /** Truncating twice is truncating once. */
  lemma DatePartIdempotent(s: string)
    ensures DatePart(DatePart(s)) == DatePart(s)
  {
    DatePartOfDate(DatePart(s));
  }

  predicate IsDigit(c: char)
  {
    '0' <= c <= '9'
  }

  function DigitChar(d: nat): (c: char)
    requires d < 10
    ensures IsDigit(c)
  {
    ('0' as int + d) as char
  }

  function DigitValue(c: char): nat
    requires IsDigit(c)
  {
    c as int - '0' as int
  }

  /** `n.toString()` for a non-negative integer: its decimal digits. */
  function NatToString(n: nat): (r: string)
    ensures |r| > 0
    ensures forall i :: 0 <= i < |r| ==> IsDigit(r[i])
  {
    if n < 10 then [DigitChar(n)] else NatToString(n / 10) + [DigitChar(n % 10)]
  }

  /** The longest prefix of `s` made of decimal digits. */
  function DigitRun(s: string): (r: string)
    ensures r <= s
    ensures forall i :: 0 <= i < |r| ==> IsDigit(r[i])
    ensures |r| < |s| ==> !IsDigit(s[|r|])
  {
    if s == [] || !IsDigit(s[0]) then [] else [s[0]] + DigitRun(s[1..])
  }

  function DigitsValue(s: string): nat
    requires forall i :: 0 <= i < |s| ==> IsDigit(s[i])
  {
    if s == [] then 0 else DigitsValue(s[..|s| - 1]) * 10 + DigitValue(s[|s| - 1])
  }

  /** `parseInt(s)` with radix 10: an optional sign, then the longest run of
      digits; `None` stands for `NaN` (no digit at all). */
  function ParseInt(s: string): Option<int>
  {
    if |s| > 0 && (s[0] == '-' || s[0] == '+') then
      var run := DigitRun(s[1..]);
      if run == [] then None
      else Some(if s[0] == '-' then -(DigitsValue(run) as int) else DigitsValue(run))
    else
      var run := DigitRun(s);
      if run == [] then None else Some(DigitsValue(run))
  }

  /** A quantity field: `parseInt(value) || 1`; both `NaN` and 0 are falsy. */
  function QuantityFromInput(text: string): (q: int)
    ensures q != 0
    ensures ParseInt(text).Some? && ParseInt(text).value != 0 ==> q == ParseInt(text).value
    ensures ParseInt(text).None? || ParseInt(text).value == 0 ==> q == 1
  {
    match ParseInt(text)
    case Some(n) => if n != 0 then n else 1
    case None => 1
  }

  lemma {:induction false} DigitRunOfDigits(s: string)
    requires forall i :: 0 <= i < |s| ==> IsDigit(s[i])
    ensures DigitRun(s) == s
  {
    if s != [] {
      DigitRunOfDigits(s[1..]);
    }
  }

  lemma {:induction false} DigitsValueOfNatToString(n: nat)
    ensures DigitsValue(NatToString(n)) == n
  {
    var r := NatToString(n);
    if n >= 10 {
      DigitsValueOfNatToString(n / 10);
      assert r[..|r| - 1] == NatToString(n / 10);
    }
  }

  /** `parseInt(n.toString()) === n`: an id sent to the server as a string
      comes back as the same number. */
  lemma ParseIntOfNatToString(n: nat)
    ensures ParseInt(NatToString(n)) == Some(n)
  {
    DigitRunOfDigits(NatToString(n));
    DigitsValueOfNatToString(n);
  }

  /** `n.toString()` for any integer: a minus sign before the digits of a
      negative number. */
  function IntToString(n: int): (r: string)
    ensures |r| > 0
  {
    if n < 0 then "-" + NatToString(-n) else NatToString(n)
  }

  /** `parseInt(n.toString()) === n` for every integer. */
  lemma ParseIntOfIntToString(n: int)
    ensures ParseInt(IntToString(n)) == Some(n)
  {
    if n < 0 {
      var s := IntToString(n);
      var digits := NatToString(-n);
      assert s[0] == '-' && s[1..] == digits;
      DigitRunOfDigits(digits);
      DigitsValueOfNatToString(-n);
      assert DigitRun(s[1..]) == digits;
    } else {
      ParseIntOfNatToString(n);
    }
  }

  /** Distinct numeric ids give distinct string ids. */
  lemma NatToStringInjective(m: nat, n: nat)
    requires NatToString(m) == NatToString(n)
    ensures m == n
  {
    ParseIntOfNatToString(m);
    ParseIntOfNatToString(n);
  }

  /** `s.split(sep)`: the pieces between separators, empty pieces included. */
  function SplitOn(s: string, sep: char): (parts: seq<string>)
    ensures |parts| >= 1
  {
    if s == [] then [""]
    else
      var rest := SplitOn(s[1..], sep);
      if s[0] == sep then [""] + rest else [[s[0]] + rest[0]] + rest[1..]
  }

  /** `parts.map(n => n[0]).join('')`: an empty part has no first character
      and contributes nothing to the join. */
  function FirstChars(parts: seq<string>): string
  {
    if parts == [] then ""
    else (if parts[0] == "" then "" else [parts[0][0]]) + FirstChars(parts[1..])
  }

  /** The initials shown in the history list:
      `userName.split(' ').map(n => n[0]).join('')`. */
  function Initials(name: string): string
  {
    FirstChars(SplitOn(name, ' '))
  }

  /** Reference definition of initials: every non-space character that begins
      the string or follows a space (`atStart` says whether the previous
      character was a space or there was none). */
  function WordStarts(s: string, atStart: bool): string
  {
    if s == [] then ""
    else (if atStart && s[0] != ' ' then [s[0]] else "") + WordStarts(s[1..], s[0] == ' ')
  }

  lemma {:induction false} SplitFirstChars(t: string)
    ensures FirstChars(SplitOn(t, ' ')) == WordStarts(t, true)
    ensures FirstChars(SplitOn(t, ' ')[1..]) == WordStarts(t, false)
  {
    if t != [] {
      var rest := SplitOn(t[1..], ' ');
      SplitFirstChars(t[1..]);
      var parts := SplitOn(t, ' ');
      if t[0] == ' ' {
        assert parts == [""] + rest;
        assert parts[1..] == rest;
      } else {
        assert parts == [[t[0]] + rest[0]] + rest[1..];
        assert parts[1..] == rest[1..];
      }
    }
  }

  /** The initials are exactly the characters that start a word. */
  lemma InitialsAreWordStarts(name: string)
    ensures Initials(name) == WordStarts(name, true)
  {
    SplitFirstChars(name);
  }
}
