/**
 * The Python string operations the core relies on: `str.strip`, `str.lower`,
 * `str.title`, `sep.join` and `str(int)`.  Case mapping covers ASCII letters
 * only; every other character is left as it is and counts as uncased.
 */
module PyText {

  /** The characters for which Python's `str.isspace()` holds; `str.strip()` removes exactly these. */
  predicate IsSpace(c: char) {
    c == ' ' || ('\t' <= c <= '\r') || ('\U{1C}' <= c <= '\U{1F}')
    || c == '\U{85}' || c == '\U{A0}' || c == '\U{1680}'
    || ('\U{2000}' <= c <= '\U{200A}') || c == '\U{2028}' || c == '\U{2029}'
    || c == '\U{202F}' || c == '\U{205F}' || c == '\U{3000}'
  }

  /** `s.lstrip()`: the longest suffix of `s` that does not start with whitespace. */
  function TrimStart(s: string): (r: string)
    ensures |r| <= |s| && r == s[|s| - |r|..]
    ensures r == [] || !IsSpace(r[0])
    ensures forall k :: 0 <= k < |s| - |r| ==> IsSpace(s[k])
  {
    if s != [] && IsSpace(s[0]) then TrimStart(s[1..]) else s
  }

  /** `s.rstrip()`: the longest prefix of `s` that does not end with whitespace. */
  function TrimEnd(s: string): (r: string)
    ensures |r| <= |s| && r == s[..|r|]
    ensures r == [] || !IsSpace(r[|r| - 1])
    ensures forall k :: |r| <= k < |s| ==> IsSpace(s[k])
  {
    if s != [] && IsSpace(s[|s| - 1]) then TrimEnd(s[..|s| - 1]) else s
  }

  /** `s.strip()` */
  function Strip(s: string): string {
    TrimEnd(TrimStart(s))
  }

  /** Stripping leaves nothing exactly when every character is whitespace. */
  lemma StripEmptyIff(s: string)
    ensures Strip(s) == [] <==> forall k :: 0 <= k < |s| ==> IsSpace(s[k])
  {
    var t := TrimStart(s);
    if !forall k :: 0 <= k < |s| ==> IsSpace(s[k]) {
      var k :| 0 <= k < |s| && !IsSpace(s[k]);
      assert t != [];
      assert !IsSpace(t[0]);
    }
  }

  /** Stripping twice is stripping once. */
  lemma StripIdempotent(s: string)
    ensures Strip(Strip(s)) == Strip(s)
  {
    var r := Strip(s);
    if r != [] {
      assert !IsSpace(r[|r| - 1]);
      assert r[0] == TrimStart(s)[0];
      assert TrimStart(r) == r;
    }
  }

  predicate IsUpper(c: char) { 'A' <= c <= 'Z' }

  predicate IsLower(c: char) { 'a' <= c <= 'z' }

  /** A character with case; Python's `title()` starts a new word after any character that is not one. */
  predicate IsCased(c: char) { IsUpper(c) || IsLower(c) }

  function LowerChar(c: char): (r: char)
    ensures IsCased(r) == IsCased(c) && !IsUpper(r)
  {
    if IsUpper(c) then (c as int + 32) as char else c
  }

  function UpperChar(c: char): (r: char)
    ensures IsCased(r) == IsCased(c) && !IsLower(r)
  {
    if IsLower(c) then (c as int - 32) as char else c
  }

  /** `s.lower()` */
  function Lower(s: string): (r: string)
    ensures |r| == |s|
    ensures forall k :: 0 <= k < |s| ==> r[k] == LowerChar(s[k])
  {
    seq(|s|, k requires 0 <= k < |s| => LowerChar(s[k]))
  }

  /**
   * `s.title()` continued after a character that was (`prevCased`) or was not cased:
   * a cased character right after another cased one is lowered, any other is raised.
   */
  function TitleFrom(s: string, prevCased: bool): (r: string)
    ensures |r| == |s|
  {
    if s == [] then []
    else [if prevCased then LowerChar(s[0]) else UpperChar(s[0])] + TitleFrom(s[1..], IsCased(s[0]))
  }

  /** `s.title()` */
  function Title(s: string): string {
    TitleFrom(s, false)
  }

  /** Whether position `k` of `s` starts a word, i.e. follows no cased character. */
  predicate StartsWord(s: string, k: nat)
    requires k < |s|
  {
    k == 0 || !IsCased(s[k - 1])
  }

  /** Every character of `s.title()` is the upper-case form of its original at a word start, the lower-case form elsewhere. */
  lemma {:induction false} TitleAt(s: string, k: nat)
    requires k < |s|
    ensures Title(s)[k] == if StartsWord(s, k) then UpperChar(s[k]) else LowerChar(s[k])
  {
    TitleFromAt(s, false, k);
  }

  lemma {:induction false} TitleFromAt(s: string, prevCased: bool, k: nat)
    requires k < |s|
    ensures TitleFrom(s, prevCased)[k] ==
      if (if k == 0 then prevCased else IsCased(s[k - 1])) then LowerChar(s[k]) else UpperChar(s[k])
  {
    if k > 0 {
      TitleFromAt(s[1..], IsCased(s[0]), k - 1);
    }
  }

  /** `sep.join(parts)` */
  function Join(parts: seq<string>, sep: string): (r: string)
  {
    if parts == [] then []
    else if |parts| == 1 then parts[0]
    else Join(parts[..|parts| - 1], sep) + sep + parts[|parts| - 1]
  }

  /** A joined list starts with its first part. */
  lemma {:induction false} JoinStartsWithFirst(parts: seq<string>, sep: string)
    requires parts != []
    ensures parts[0] <= Join(parts, sep)
  {
    if |parts| > 1 {
      JoinStartsWithFirst(parts[..|parts| - 1], sep);
    }
  }

  /** A joined list of at least two parts starts with the first part followed by the separator. */
  lemma {:induction false} JoinHead(parts: seq<string>, sep: string)
    requires |parts| >= 2
    ensures Join(parts, sep) == parts[0] + sep + Join(parts[1..], sep)
  {
    if |parts| > 2 {
      var init := parts[..|parts| - 1];
      JoinHead(init, sep);
      assert init[1..] == parts[1..][..|parts| - 2];
    } else {
      assert parts[1..] == [parts[1]];
    }
  }

  /** Whether `s` has a character other than whitespace. */
  predicate HasNonSpace(s: string) {
    exists k :: 0 <= k < |s| && !IsSpace(s[k])
  }

  /** The length of a joined list: every part plus one separator between each neighbouring pair. */
  lemma {:induction false} JoinLength(parts: seq<string>, sep: string)
    requires parts != []
    ensures |Join(parts, sep)| == TotalLength(parts) + (|parts| - 1) * |sep|
  {
    if |parts| > 1 {
      assert (|parts| - 1) * |sep| == (|parts| - 2) * |sep| + |sep|;
      JoinLength(parts[..|parts| - 1], sep);
      TotalLengthSnoc(parts[..|parts| - 1], parts[|parts| - 1]);
      assert parts[..|parts| - 1] + [parts[|parts| - 1]] == parts;
    }
  }

  function TotalLength(parts: seq<string>): nat {
    if parts == [] then 0 else |parts[0]| + TotalLength(parts[1..])
  }

  lemma {:induction false} TotalLengthSnoc(parts: seq<string>, last: string)
    ensures TotalLength(parts + [last]) == TotalLength(parts) + |last|
  {
    if parts != [] {
      assert (parts + [last])[1..] == parts[1..] + [last];
      TotalLengthSnoc(parts[1..], last);
    }
  }

  predicate IsDigit(c: char) { '0' <= c <= '9' }

  function DigitChar(d: nat): (c: char)
    requires d < 10
    ensures IsDigit(c)
  {
    ('0' as int + d) as char
  }

  /** The decimal digits of `n`, most significant first, with no leading zero. */
  function NatDigits(n: nat): (r: string)
    ensures r != [] && forall k :: 0 <= k < |r| ==> IsDigit(r[k])
    ensures |r| > 1 ==> r[0] != '0'
  {
    if n < 10 then [DigitChar(n)] else NatDigits(n / 10) + [DigitChar(n % 10)]
  }

  /** Python's `str(n)` for an integer: an optional minus sign and the decimal digits. */
  function IntToString(n: int): (r: string)
    ensures r != []
  {
    if n < 0 then "-" + NatDigits(-n) else NatDigits(n)
  }

  /** The value of a string of decimal digits (an independent reading of the rendering). */
  function DigitsValue(s: string): int
    requires forall k :: 0 <= k < |s| ==> IsDigit(s[k])
  {
    if s == [] then 0 else 10 * DigitsValue(s[..|s| - 1]) + (s[|s| - 1] as int - '0' as int)
  }

  /** `int(s)` on what `str(n)` produces. */
  function ParseInt(s: string): int
    requires s != [] && (s[0] == '-' || IsDigit(s[0])) && forall k :: 1 <= k < |s| ==> IsDigit(s[k])
  {
    if s[0] == '-' then -DigitsValue(s[1..]) else DigitsValue(s)
  }

  lemma {:induction false} NatDigitsRoundTrip(n: nat)
    ensures DigitsValue(NatDigits(n)) == n
  {
    if n >= 10 {
      var r := NatDigits(n);
      assert r[..|r| - 1] == NatDigits(n / 10);
      NatDigitsRoundTrip(n / 10);
    }
  }

  /** The rendering of an integer reads back as the same integer. */
  lemma IntToStringRoundTrip(n: int)
    ensures var r := IntToString(n);
      (r[0] == '-' || IsDigit(r[0])) && (forall k :: 1 <= k < |r| ==> IsDigit(r[k])) && ParseInt(r) == n
  {
    var r := IntToString(n);
    if n < 0 {
      assert r[1..] == NatDigits(-n);
      NatDigitsRoundTrip(-n);
    } else {
      NatDigitsRoundTrip(n);
    }
  }
}
