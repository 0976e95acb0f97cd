/** Values shared by every part of the model: optional and fallible results,
    JavaScript numbers, and the string operations the services rely on
    (`trim`, `split(/\s+/)`, `toUpperCase`, `includes`, `endsWith`, `replace`). */
module Base {

  datatype Option<+T> = None | Some(value: T)

  /** A value or the message of the error that was thrown. */
  datatype Result<+T> = Ok(value: T) | Err(error: string)

  /** A JavaScript number: `NaN` or a finite value (infinities are not modelled). */
  datatype Number = NaN | Num(value: real)

  /** `a + b` with NaN propagation. */
  function Plus(a: Number, b: Number): (r: Number)
    ensures r.Num? <==> a.Num? && b.Num?
    ensures r.Num? ==> r.value == a.value + b.value
  {
    if a.Num? && b.Num? then Num(a.value + b.value) else NaN
  }

  /** `n > 0`: false for NaN. */
  predicate Positive(n: Number) {
    n.Num? && n.value > 0.0
  }

  /** `n || 0`: NaN and 0 are falsy and give 0. */
  function OrZero(n: Number): (r: real)
    ensures n.Num? ==> r == n.value
    ensures n.NaN? ==> r == 0.0
  {
    if n.Num? && n.value != 0.0 then n.value else 0.0
  }

  /** JavaScript truthiness of a number. */
  predicate Truthy(n: Number) {
    n.Num? && n.value != 0.0
  }

  // ---------------------------------------------------------------- characters

  /** The characters `\s` and `String.prototype.trim` treat as white space:
      ECMAScript WhiteSpace and LineTerminator. */
  predicate IsSpace(c: char) {
    c == ' ' || c == '\t' || c == '\n' || c == '\r' || c == '\U{000B}' || c == '\U{000C}'
    || c == '\U{00A0}' || c == '\U{FEFF}' || c == '\U{1680}' || ('\U{2000}' <= c <= '\U{200A}')
    || c == '\U{2028}' || c == '\U{2029}' || c == '\U{202F}' || c == '\U{205F}' || c == '\U{3000}'
  }

  function UpperChar(c: char): char {
    if 'a' <= c <= 'z' then (c as int - 32) as char else c
  }

  function LowerChar(c: char): char {
    if 'A' <= c <= 'Z' then (c as int + 32) as char else c
  }

  /** `toUpperCase`, on the ASCII letters. */
  function Upper(s: string): (r: string)
    ensures |r| == |s|
    ensures forall i :: 0 <= i < |s| ==> r[i] == UpperChar(s[i])
  {
    seq(|s|, i requires 0 <= i < |s| => UpperChar(s[i]))
  }

  /** `toLowerCase`, on the ASCII letters. */
  function Lower(s: string): (r: string)
    ensures |r| == |s|
    ensures forall i :: 0 <= i < |s| ==> r[i] == LowerChar(s[i])
  {
    seq(|s|, i requires 0 <= i < |s| => LowerChar(s[i]))
  }

  lemma UpperIdempotent(s: string)
    ensures Upper(Upper(s)) == Upper(s)
  {
    assert forall i :: 0 <= i < |s| ==> UpperChar(UpperChar(s[i])) == UpperChar(s[i]);
  }

  // ------------------------------------------------------------------ searching

  /** `s.includes(c)` for a one-character needle. */
  predicate Contains(s: string, c: char) {
    exists i :: 0 <= i < |s| && s[i] == c
  }

  predicate StartsWith(s: string, prefix: string) {
    |prefix| <= |s| && s[..|prefix|] == prefix
  }

  predicate EndsWith(s: string, suffix: string) {
    |suffix| <= |s| && s[|s| - |suffix|..] == suffix
  }

  /** `s.replace(pattern, repl)` with a string pattern: only the first occurrence is replaced. */
  function ReplaceFirst(s: string, pattern: string, repl: string): (r: string)
    requires pattern != []
    decreases |s|
  {
    if |s| < |pattern| then s
    else if StartsWith(s, pattern) then repl + s[|pattern|..]
    else [s[0]] + ReplaceFirst(s[1..], pattern, repl)
  }

  /** Rust's `str::replace`: every non-overlapping occurrence, left to right. */
  function ReplaceAll(s: string, pattern: string, repl: string): (r: string)
    requires pattern != []
    decreases |s|
  {
    if |s| < |pattern| then s
    else if StartsWith(s, pattern) then repl + ReplaceAll(s[|pattern|..], pattern, repl)
    else [s[0]] + ReplaceAll(s[1..], pattern, repl)
  }

  /** Removing the only occurrence of `suffix`, at the end, leaves the stem. */
  lemma {:induction false} ReplaceFirstSuffix(stem: string, suffix: string)
    requires suffix != []
    requires forall i :: 0 <= i < |stem| ==> !StartsWith((stem + suffix)[i..], suffix)
    ensures ReplaceFirst(stem + suffix, suffix, []) == stem
  {
    if stem == [] {
      assert stem + suffix == suffix;
    } else {
      assert !StartsWith((stem + suffix)[0..], suffix);
      assert (stem + suffix)[0..] == stem + suffix;
      assert (stem + suffix)[1..] == stem[1..] + suffix;
      forall i | 0 <= i < |stem[1..]|
        ensures !StartsWith((stem[1..] + suffix)[i..], suffix)
      {
        assert (stem[1..] + suffix)[i..] == (stem + suffix)[i + 1..];
      }
      ReplaceFirstSuffix(stem[1..], suffix);
    }
  }

  // -------------------------------------------------------------------- trimming

  function TrimStart(s: string): (r: string)
    ensures |r| <= |s| && r == s[|s| - |r|..]
    ensures r == [] || !IsSpace(r[0])
    ensures forall i :: 0 <= i < |s| - |r| ==> IsSpace(s[i])
  {
    if s != [] && IsSpace(s[0]) then
      var r := TrimStart(s[1..]);
      assert forall i :: 1 <= i < |s| ==> s[i] == s[1..][i - 1];
      r
    else s
  }

  function TrimEnd(s: string): (r: string)
    ensures |r| <= |s| && r == s[..|r|]
    ensures r == [] || !IsSpace(r[|r| - 1])
    ensures forall i :: |r| <= i < |s| ==> IsSpace(s[i])
  {
    if s != [] && IsSpace(s[|s| - 1]) then
      var r := TrimEnd(s[..|s| - 1]);
      assert forall i :: 0 <= i < |s| - 1 ==> s[i] == s[..|s| - 1][i];
      r
    else s
  }

  /** `s.trim()`: a slice of `s` with white space only around it and none at its ends. */
  function Trim(s: string): (r: string)
    ensures |r| <= |s|
    ensures r == [] || (!IsSpace(r[0]) && !IsSpace(r[|r| - 1]))
  {
    TrimEnd(TrimStart(s))
  }

  /** No white space at either end. */
  predicate Trimmed(s: string) {
    s == [] || (!IsSpace(s[0]) && !IsSpace(s[|s| - 1]))
  }

  lemma TrimOfTrimmed(s: string)
    requires Trimmed(s)
    ensures Trim(s) == s
  {
    assert TrimStart(s) == s;
    assert TrimEnd(s) == s;
  }

  // ------------------------------------------------------------------- splitting

  predicate NoSpace(s: string) {
    forall i :: 0 <= i < |s| ==> !IsSpace(s[i])
  }

  /** The longest prefix of `s` holding no white space. */
  function LeadingWord(s: string): (w: string)
    ensures StartsWith(s, w) && NoSpace(w)
    ensures |w| < |s| ==> IsSpace(s[|w|])
  {
    if s == [] || IsSpace(s[0]) then [] else [s[0]] + LeadingWord(s[1..])
  }

  /** `s.split(/\s+/)`: the pieces between maximal runs of white space; an
      empty string gives `[""]`, a leading or trailing run gives an empty piece. */
  function SplitSpace(s: string): (parts: seq<string>)
    ensures |parts| >= 1 && parts[0] == LeadingWord(s)
    decreases |s|
  {
    var w := LeadingWord(s);
    var rest := s[|w|..];
    if rest == [] then [w] else [w] + SplitSpace(TrimStart(rest))
  }

  /** Every piece is a non-empty word. */
  ghost predicate Words(ws: seq<string>) {
    forall k :: 0 <= k < |ws| ==> ws[k] != [] && NoSpace(ws[k])
  }

  lemma ConsWords(w: string, ws: seq<string>)
    requires w != [] && NoSpace(w) && Words(ws)
    ensures Words([w] + ws)
  {
    var r := [w] + ws;
    forall k | 0 < k < |r| ensures r[k] == ws[k - 1] { }
  }

  /** Trimming the front of a text that ends in a non-space leaves a shorter,
      non-empty, trimmed text. */
  lemma TrimStartOfTail(rest: string)
    requires rest != [] && !IsSpace(rest[|rest| - 1])
    ensures var t := TrimStart(rest); t != [] && Trimmed(t) && |t| <= |rest|
  {
    var t := TrimStart(rest);
    assert t != [];
    assert t[|t| - 1] == rest[|rest| - 1];
  }

  /** Every piece of the split of a trimmed, non-empty string is a non-empty word. */
  lemma {:induction false} SplitTrimmedWords(s: string)
    requires s != [] && Trimmed(s)
    ensures Words(SplitSpace(s))
    decreases |s|
  {
    var w := LeadingWord(s);
    assert w != [];
    var rest := s[|w|..];
    if rest == [] {
      assert SplitSpace(s) == [w];
    } else {
      assert rest[|rest| - 1] == s[|s| - 1];
      TrimStartOfTail(rest);
      var t := TrimStart(rest);
      SplitTrimmedWords(t);
      ConsWords(w, SplitSpace(t));
    }
  }

  /** `parts.join(sep)`. */
  function Join(parts: seq<string>, sep: string): string {
    if parts == [] then []
    else if |parts| == 1 then parts[0]
    else parts[0] + sep + Join(parts[1..], sep)
  }

  // ------------------------------------------------------------------- numbers

  function DigitChar(d: nat): char
    requires d < 10
  {
    ('0' as int + d) as char
  }

  /** The decimal rendering JavaScript template strings give a non-negative integer. */
  function NatToString(n: nat): (s: string)
    ensures s != []
    ensures forall i :: 0 <= i < |s| ==> '0' <= s[i] <= '9'
    ensures |s| > 1 ==> s[0] != '0'
  {
    if n < 10 then [DigitChar(n)] else NatToString(n / 10) + [DigitChar(n % 10)]
  }
}
