/** The pieces of Rust's `str` behaviour that the recorder relies on: `trim`,
    `strip_prefix`, `starts_with`, `contains`, ASCII lower-casing, decimal
    rendering of integers (`format!("{}", n)`) and `str::parse::<u32>()`. */
module Text {
  import opened Common

  /** Rust's `char::is_whitespace`: the Unicode White_Space property. */
  predicate IsWhitespace(c: char) {
    c == ' ' || ('\t' <= c <= '\r') || c == '\U{85}' || c == '\U{A0}' || c == '\U{1680}'
    || ('\U{2000}' <= c <= '\U{200A}') || c == '\U{2028}' || c == '\U{2029}'
    || c == '\U{202F}' || c == '\U{205F}' || c == '\U{3000}'
  }

  /** `str::trim_start`: drops the leading whitespace. */
  function TrimStart(s: string): (r: string)
    ensures |r| <= |s| && r == s[|s| - |r|..]
    decreases |s|
  {
    if |s| > 0 && IsWhitespace(s[0]) then TrimStart(s[1..]) else s
  }

  /** What `trim_start` drops is whitespace, and what it keeps does not start with any. */
  lemma {:induction false} TrimStartSpec(s: string)
    ensures var r := TrimStart(s);
      && (r == [] || !IsWhitespace(r[0]))
      && forall i :: 0 <= i < |s| - |r| ==> IsWhitespace(s[i])
    decreases |s|
  {
    if |s| > 0 && IsWhitespace(s[0]) {
      var tail := s[1..];
      TrimStartSpec(tail);
      var r := TrimStart(tail);
      assert TrimStart(s) == r;
      forall i | 1 <= i < |s| - |r|
        ensures IsWhitespace(s[i])
      {
        assert s[i] == tail[i - 1] && i - 1 < |tail| - |r|;
      }
    }
  }

  /** `str::trim_end`: drops the trailing whitespace. */
  function TrimEnd(s: string): (r: string)
    ensures |r| <= |s| && r == s[..|r|]
    decreases |s|
  {
    if |s| > 0 && IsWhitespace(s[|s| - 1]) then TrimEnd(s[..|s| - 1]) else s
  }

  /** What `trim_end` drops is whitespace, and what it keeps does not end with any. */
  lemma {:induction false} TrimEndSpec(s: string)
    ensures var r := TrimEnd(s);
      && (r == [] || !IsWhitespace(r[|r| - 1]))
      && forall i :: |r| <= i < |s| ==> IsWhitespace(s[i])
    decreases |s|
  {
    if |s| > 0 && IsWhitespace(s[|s| - 1]) {
      TrimEndSpec(s[..|s| - 1]);
      var r := TrimEnd(s);
      forall i | |r| <= i < |s| - 1
        ensures IsWhitespace(s[i])
      {
        assert s[i] == s[..|s| - 1][i];
      }
    }
  }

  /** `str::trim`: leading and trailing whitespace dropped. */
  function Trim(s: string): string {
    TrimEnd(TrimStart(s))
  }

  /** Leading whitespace is skipped one character at a time. */
  lemma {:induction false} TrimStartIndented(indent: string, t: string)
    requires forall i :: 0 <= i < |indent| ==> IsWhitespace(indent[i])
    requires |t| > 0 && !IsWhitespace(t[0])
    ensures TrimStart(indent + t) == t
    decreases |indent|
  {
    if indent == [] {
      assert indent + t == t;
    } else {
      var s := indent + t;
      assert s[0] == indent[0] && s[1..] == indent[1..] + t;
      TrimStartIndented(indent[1..], t);
    }
  }

  /** A trimmed line with no surrounding whitespace is its own trim. */
  lemma TrimmedIsTrim(s: string)
    requires |s| > 0 && !IsWhitespace(s[0]) && !IsWhitespace(s[|s| - 1])
    ensures Trim(s) == s
  {
    assert TrimStart(s) == s;
    assert TrimEnd(s) == s;
  }

  /** Indentation is trimmed away. */
  lemma TrimIndented(indent: string, t: string)
    requires forall i :: 0 <= i < |indent| ==> IsWhitespace(indent[i])
    requires |t| > 0 && !IsWhitespace(t[0]) && !IsWhitespace(t[|t| - 1])
    ensures Trim(indent + t) == t
  {
    TrimStartIndented(indent, t);
    TrimmedIsTrim(t);
  }

  /** A trailing newline is trimmed away. */
  lemma TrimNewline(d: string)
    requires |d| > 0 && !IsWhitespace(d[0]) && !IsWhitespace(d[|d| - 1])
    ensures Trim(d + "\n") == d
  {
    var s := d + "\n";
    assert TrimStart(s) == s;
    assert s[..|d|] == d;
    assert TrimEnd(s) == TrimEnd(d);
    TrimmedIsTrim(d);
  }

  predicate AllWhitespace(s: string) {
    forall i :: 0 <= i < |s| ==> IsWhitespace(s[i])
  }

  /** `trim_start` of a concatenation: the second part's, when the first is
      all whitespace, and otherwise the first part's followed by the second. */
  lemma {:induction false} TrimStartConcat(s: string, t: string)
    ensures TrimStart(s + t) == if TrimStart(s) == [] then TrimStart(t) else TrimStart(s) + t
    decreases |s|
  {
    if s == [] {
      assert s + t == t;
    } else if IsWhitespace(s[0]) {
      assert (s + t)[0] == s[0] && (s + t)[1..] == s[1..] + t;
      TrimStartConcat(s[1..], t);
    }
  }

  /** `trim_end` of a concatenation: the first part's, when the second is
      all whitespace, and otherwise the first part followed by the second's. */
  lemma {:induction false} TrimEndConcat(s: string, t: string)
    ensures TrimEnd(s + t) == if TrimEnd(t) == [] then TrimEnd(s) else s + TrimEnd(t)
    decreases |t|
  {
    if t == [] {
      assert s + t == s;
    } else if IsWhitespace(t[|t| - 1]) {
      var u := t[..|t| - 1];
      assert (s + t)[|s + t| - 1] == t[|t| - 1] && (s + t)[..|s + t| - 1] == s + u;
      TrimEndConcat(s, u);
    }
  }

  /** Both trims remove all of a run of whitespace. */
  lemma WhitespaceTrimsAway(ws: string)
    requires AllWhitespace(ws)
    ensures TrimStart(ws) == [] && TrimEnd(ws) == []
  {
    TrimStartSpec(ws);
    TrimEndSpec(ws);
  }

  /** Whitespace around a line does not change its trim. */
  lemma TrimPadded(ws1: string, line: string, ws2: string)
    requires AllWhitespace(ws1) && AllWhitespace(ws2)
    ensures Trim(ws1 + line + ws2) == Trim(line)
  {
    WhitespaceTrimsAway(ws1);
    WhitespaceTrimsAway(ws2);
    assert ws1 + line + ws2 == ws1 + (line + ws2);
    TrimStartConcat(ws1, line + ws2);
    TrimStartConcat(line, ws2);
    var u := TrimStart(line);
    if u != [] {
      TrimEndConcat(u, ws2);
    }
  }

  /** The position of the first line feed in `text`, or its length when it has none. */
  function FirstNewline(text: string): (k: nat)
    ensures k <= |text| && (k < |text| ==> text[k] == '\n')
    ensures forall j :: 0 <= j < k ==> text[j] != '\n'
    decreases |text|
  {
    if text == [] || text[0] == '\n' then 0
    else
      var k := FirstNewline(text[1..]);
      assert forall j :: 1 <= j < k + 1 ==> text[j] == text[1..][j - 1];
      k + 1
  }

  /** A line with the carriage return of a `\r\n` ending dropped. */
  function StripCarriageReturn(line: string): string {
    if |line| > 0 && line[|line| - 1] == '\r' then line[..|line| - 1] else line
  }

  /** `str::lines`: the text cut at each line feed, with a carriage return
      just before a line feed dropped; a final line feed ends the last line
      rather than starting an empty one, a last line without a line feed is
      kept as it is, and empty text has no lines. */
  function Lines(text: string): (r: seq<string>)
    ensures forall i :: 0 <= i < |r| ==> '\n' !in r[i]
    decreases |text|
  {
    if text == [] then []
    else
      var k := FirstNewline(text);
      if k == |text| then
        assert '\n' !in text;
        [text]
      else
        var line := StripCarriageReturn(text[..k]);
        assert '\n' !in line;
        [line] + Lines(text[k + 1..])
  }

  /** A line followed by a line feed is read back as that line, and the
      lines after it as before. */
  lemma LinesCons(line: string, rest: string)
    requires '\n' !in line && (line == [] || line[|line| - 1] != '\r')
    ensures Lines(line + "\n" + rest) == [line] + Lines(rest)
  {
    var text := line + "\n" + rest;
    assert FirstNewline(text) == |line| by {
      assert text[|line|] == '\n';
      assert forall j :: 0 <= j < |line| ==> text[j] == line[j];
      FirstNewlineAt(text, |line|);
    }
    assert text[..|line|] == line && text[|line| + 1..] == rest;
  }

  /** A line ended by `\r\n` is read back without the carriage return. */
  lemma LinesCrlf(line: string, rest: string)
    requires '\n' !in line
    ensures Lines(line + "\r\n" + rest) == [line] + Lines(rest)
  {
    var text := line + "\r\n" + rest;
    assert FirstNewline(text) == |line| + 1 by {
      assert text[|line|] == '\r' && text[|line| + 1] == '\n';
      assert forall j :: 0 <= j < |line| ==> text[j] == line[j];
      FirstNewlineAt(text, |line| + 1);
    }
    assert text[..|line| + 1] == line + "\r" && text[|line| + 2..] == rest;
    assert StripCarriageReturn(line + "\r") == line;
  }

  /** A last line without a line feed is read back whole, even when it ends
      in a carriage return. */
  lemma LinesLast(line: string)
    requires line != [] && '\n' !in line
    ensures Lines(line) == [line]
  {
  }

  /** A line feed with none before it is the first one. */
  lemma FirstNewlineAt(text: string, p: nat)
    requires p < |text| && text[p] == '\n'
    requires forall j :: 0 <= j < p ==> text[j] != '\n'
    ensures FirstNewline(text) == p
  {
  }

  predicate StartsWith(s: string, prefix: string) {
    |prefix| <= |s| && s[..|prefix|] == prefix
  }

  /** `str::strip_prefix`. */
  function StripPrefix(s: string, prefix: string): (r: Option<string>)
    ensures r.Some? <==> StartsWith(s, prefix)
    ensures r.Some? ==> s == prefix + r.value
  {
    if StartsWith(s, prefix) then Some(s[|prefix|..]) else None
  }

  /** `str::contains` with a string pattern: some infix of `s` equals `needle`. */
  predicate Contains(s: string, needle: string)
    decreases |s|
  {
    StartsWith(s, needle) || (|s| > 0 && Contains(s[1..], needle))
  }

  /** The lower case of one character, as far as it can be an ASCII letter:
      the ASCII capitals, and the Kelvin sign, whose lower case is `k`. */
  function LowerChar(c: char): char {
    if 'A' <= c <= 'Z' then (c as int + 32) as char
    else if c == '\U{212A}' then 'k'
    else c
  }

  /** `str::to_lowercase` as far as a search for a lower-case ASCII keyword
      can tell: every character that lower-cases to an ASCII letter is mapped,
      the others are kept. */
  function ToLowercase(s: string): (r: string)
    ensures |r| == |s|
    ensures forall i :: 0 <= i < |s| ==> r[i] == LowerChar(s[i])
  {
    seq(|s|, i requires 0 <= i < |s| => LowerChar(s[i]))
  }

  /** Lower-casing twice is lower-casing once, and leaves no ASCII capital
      and no Kelvin sign behind. */
  lemma ToLowercaseIdempotent(s: string)
    ensures ToLowercase(ToLowercase(s)) == ToLowercase(s)
    ensures forall i :: 0 <= i < |s| ==> !('A' <= ToLowercase(s)[i] <= 'Z') && ToLowercase(s)[i] != '\U{212A}'
  {
    var l := ToLowercase(s);
    assert forall i :: 0 <= i < |s| ==> LowerChar(l[i]) == l[i];
  }

  predicate IsDigit(c: char) {
    '0' <= c <= '9'
  }

  predicate AllDigits(s: string) {
    forall i :: 0 <= i < |s| ==> IsDigit(s[i])
  }

  /** The value of a string of decimal digits, most significant first. */
  function DigitsValue(s: string): nat
    requires AllDigits(s)
  {
    if s == [] then 0
    else DigitsValue(s[..|s| - 1]) * 10 + (s[|s| - 1] as int - '0' as int)
  }

  /** `format!("{}", n)` for an unsigned integer: no sign, no leading zeros. */
  function Decimal(n: nat): (r: string)
    ensures |r| > 0 && AllDigits(r)
  {
    if n < 10 then ["0123456789"[n]] else Decimal(n / 10) + ["0123456789"[n % 10]]
  }

  /** `str::parse::<u32>()`: an optional `+`, then at least one decimal digit,
      and a value that fits in 32 bits. */
  function ParseU32(s: string): (r: Option<U32>)
    ensures r.Some? ==> exists d :: (d == s || "+" + d == s) && |d| > 0 && AllDigits(d) && DigitsValue(d) == r.value
  {
    var digits := if |s| > 0 && s[0] == '+' then s[1..] else s;
    if |digits| == 0 || !AllDigits(digits) then None
    else
      var v := DigitsValue(digits);
      if v < U32_LIMIT then
        assert digits == s || "+" + digits == s;
        Some(v)
      else None
  }

  /** Every optional `+` followed by decimal digits is read as its value when
      that fits in 32 bits (leading zeros allowed), and refused as an
      overflow otherwise. */
  lemma ParseU32Digits(s: string, d: string)
    requires (d == s || "+" + d == s) && |d| > 0 && AllDigits(d)
    ensures ParseU32(s) == if DigitsValue(d) < U32_LIMIT then Some(DigitsValue(d)) else None
  {
    if "+" + d == s {
      assert s[1..] == d;
    } else {
      assert IsDigit(d[0]);
    }
  }

  /** Reading back a rendered number gives the number. */
  lemma {:induction false} DecimalValue(n: nat)
    ensures DigitsValue(Decimal(n)) == n
  {
    if n >= 10 {
      var d := Decimal(n);
      DecimalValue(n / 10);
      assert d[..|d| - 1] == Decimal(n / 10);
    }
  }

  /** Distinct numbers render to distinct strings. */
  lemma DecimalInjective(a: nat, b: nat)
    ensures Decimal(a) == Decimal(b) ==> a == b
  {
    DecimalValue(a);
    DecimalValue(b);
  }

  /** `n.to_string().parse::<u32>()` gives `n` back for every 32-bit `n`. */
  lemma ParseU32Decimal(n: U32)
    ensures ParseU32(Decimal(n)) == Some(n)
  {
    DecimalValue(n);
    var d := Decimal(n);
    assert IsDigit(d[0]);
  }

  /** A rendered number has no surrounding whitespace, so trimming keeps it. */
  lemma DecimalTrimmed(n: nat)
    ensures var d := Decimal(n);
      && IsDigit(d[0]) && IsDigit(d[|d| - 1])
      && !IsWhitespace(d[0]) && !IsWhitespace(d[|d| - 1]) && Trim(d) == d
  {
    var d := Decimal(n);
    assert IsDigit(d[0]) && IsDigit(d[|d| - 1]);
    TrimmedIsTrim(d);
  }

  /** `needle` occurs in `s` at position `p`. */
  predicate OccursAt(s: string, needle: string, p: int) {
    0 <= p && p + |needle| <= |s| && s[p..p + |needle|] == needle
  }

  /** An occurrence at a known position is an occurrence. */
  lemma {:induction false} ContainsAt(s: string, needle: string, p: nat)
    requires OccursAt(s, needle, p)
    ensures Contains(s, needle)
    decreases p
  {
    if p > 0 {
      assert s[1..][p - 1..p - 1 + |needle|] == s[p..p + |needle|];
      ContainsAt(s[1..], needle, p - 1);
    }
  }

  /** An occurrence is found at some position. */
  lemma {:induction false} ContainsWitness(s: string, needle: string)
    requires Contains(s, needle)
    ensures exists p :: OccursAt(s, needle, p)
    decreases |s|
  {
    if StartsWith(s, needle) {
      assert OccursAt(s, needle, 0);
    } else {
      ContainsWitness(s[1..], needle);
      var p :| OccursAt(s[1..], needle, p);
      assert s[1..][p..p + |needle|] == s[p + 1..p + 1 + |needle|];
      assert OccursAt(s, needle, p + 1);
    }
  }

  /** A lower-cased string contains what a lower-cased infix of it contains. */
  lemma InfixContains(pre: string, mid: string, post: string, needle: string)
    requires Contains(ToLowercase(mid), needle)
    ensures Contains(ToLowercase(pre + mid + post), needle)
  {
    ContainsWitness(ToLowercase(mid), needle);
    var p :| OccursAt(ToLowercase(mid), needle, p);
    var s := pre + mid + post;
    var low := ToLowercase(s);
    forall i | 0 <= i < |needle| ensures low[|pre| + p + i] == needle[i] {
      assert s[|pre| + p + i] == mid[p + i];
      assert ToLowercase(mid)[p..p + |needle|][i] == needle[i];
    }
    assert low[|pre| + p..|pre| + p + |needle|] == needle;
    ContainsAt(low, needle, |pre| + p);
  }
}
