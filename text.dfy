/**
 * The few .NET string and path operations the relay and the agent rely on,
 * written out so that their behaviour is part of the model: `String.StartsWith`
 * (ordinal, and ignoring ASCII case), `String.IsNullOrEmpty`, `Char.IsWhiteSpace`,
 * `String.IsNullOrWhiteSpace`, `String.TrimEnd`, `String.Replace`, `Int32.ToString`
 * for positive values, and `Path.GetFileName`.
 */
module Text {
  import opened Common

  /** The case folding of an ordinal case-insensitive comparison, on ASCII
      letters: upper case maps to lower case, every other character to itself. */
  function FoldCase(c: char): (f: char)
    ensures 'A' <= c <= 'Z' ==> f as int == c as int + 32
    ensures !('A' <= c <= 'Z') ==> f == c
  {
    if 'A' <= c <= 'Z' then (c as int + 32) as char else c
  }

  /** `String.Equals(a, b, StringComparison.OrdinalIgnoreCase)`. */
  predicate EqualsIgnoreCase(a: string, b: string) {
    |a| == |b| && forall i :: 0 <= i < |a| ==> FoldCase(a[i]) == FoldCase(b[i])
  }

  /** `s.StartsWith(prefix, StringComparison.OrdinalIgnoreCase)`. */
  predicate StartsWithIgnoreCase(s: string, prefix: string) {
    |prefix| <= |s| && EqualsIgnoreCase(s[..|prefix|], prefix)
  }

  /** A string matching another up to case starts, up to case, with every
      prefix of the other. */
  lemma EqualsIgnoreCasePrefix(a: string, b: string, prefix: string)
    requires EqualsIgnoreCase(a, b) && prefix <= b
    ensures StartsWithIgnoreCase(a, prefix)
  {
    forall i | 0 <= i < |prefix|
      ensures FoldCase(a[..|prefix|][i]) == FoldCase(prefix[i])
    {
      assert prefix[i] == b[i];
    }
  }

  /** `String.IsNullOrEmpty`. */
  predicate IsNullOrEmpty(s: Option<string>) {
    s == None || s == Some("")
  }

  /** `Char.IsWhiteSpace`: the characters of the Unicode categories Zs, Zl and Zp,
      the controls U+0009 to U+000D, U+0085 and U+00A0. */
  predicate IsWhiteSpace(c: char): (b: bool)
    ensures c < '\U{0080}' ==> (b <==> c == ' ' || '\t' <= c <= '\r')
  {
    ('\t' <= c <= '\r') || c == ' ' || c == '\U{0085}' || c == '\U{00A0}' || c == '\U{1680}'
    || ('\U{2000}' <= c <= '\U{200A}') || c == '\U{2028}' || c == '\U{2029}'
    || c == '\U{202F}' || c == '\U{205F}' || c == '\U{3000}'
  }

  /** `String.IsNullOrWhiteSpace` on a string that is not null. */
  predicate IsBlank(s: string) {
    forall i :: 0 <= i < |s| ==> IsWhiteSpace(s[i])
  }

  /** `String.TrimEnd`: removes every trailing character that `trim` selects,
      and nothing else. */
  function TrimEnd(s: string, trim: char -> bool): (r: string)
    ensures r <= s
    ensures r == [] || !trim(r[|r| - 1])
    ensures forall i :: |r| <= i < |s| ==> trim(s[i])
  {
    if s == [] || !trim(s[|s| - 1]) then s else TrimEnd(s[..|s| - 1], trim)
  }

  /** Trimming only ever looks at the tail: when `b` still holds a character
      that is kept, everything of `a` survives. */
  lemma {:induction false} TrimEndAppend(a: string, b: string, trim: char -> bool)
    requires exists i :: 0 <= i < |b| && !trim(b[i])
    ensures TrimEnd(a + b, trim) == a + TrimEnd(b, trim)
    decreases |b|
  {
    var ab := a + b;
    if trim(b[|b| - 1]) {
      var k :| 0 <= k < |b| && !trim(b[k]);
      assert k < |b| - 1;
      assert ab[..|ab| - 1] == a + b[..|b| - 1];
      TrimEndAppend(a, b[..|b| - 1], trim);
    }
  }

  /** `String.Replace("\"", "\\\"")`: every double quote gets a backslash in front. */
  function EscapeQuotes(s: string): (r: string)
    ensures r == [] || r[0] != '"'
    ensures |s| <= |r| <= 2 * |s|
    ensures (forall i :: 0 <= i < |s| ==> s[i] != '"') ==> r == s
    decreases |s|
  {
    if s == [] then []
    else (if s[0] == '"' then "\\\"" else [s[0]]) + EscapeQuotes(s[1..])
  }

  /** The inverse reading of `EscapeQuotes`: a backslash followed by a quote
      stands for a quote, everything else for itself. */
  function UnescapeQuotes(s: string): string
    decreases |s|
  {
    if |s| >= 2 && s[0] == '\\' && s[1] == '"' then "\"" + UnescapeQuotes(s[2..])
    else if s == [] then []
    else [s[0]] + UnescapeQuotes(s[1..])
  }

  /** Escaping loses nothing: reading the escaped text back gives the original. */
  lemma {:induction false} UnescapeEscapeQuotes(s: string)
    ensures UnescapeQuotes(EscapeQuotes(s)) == s
    decreases |s|
  {
    if s != [] {
      var rest := EscapeQuotes(s[1..]);
      UnescapeEscapeQuotes(s[1..]);
      if s[0] == '"' {
        assert EscapeQuotes(s) == "\\\"" + rest;
        assert ("\\\"" + rest)[2..] == rest;
      } else {
        assert EscapeQuotes(s) == [s[0]] + rest;
        assert ([s[0]] + rest)[1..] == rest;
      }
    }
  }

  /** In escaped text no quote stands alone: each follows a backslash. */
  lemma {:induction false} EscapedQuotesFollowBackslash(s: string, i: nat)
    requires i < |EscapeQuotes(s)| && EscapeQuotes(s)[i] == '"'
    ensures i > 0 && EscapeQuotes(s)[i - 1] == '\\'
    decreases |s|
  {
    var head := if s[0] == '"' then "\\\"" else [s[0]];
    var rest := EscapeQuotes(s[1..]);
    assert EscapeQuotes(s) == head + rest;
    if i >= |head| {
      assert rest[i - |head|] == '"';
      EscapedQuotesFollowBackslash(s[1..], i - |head|);
    }
  }

  /** The decimal digit for `d`. */
  function Digit(d: nat): (c: char)
    requires d < 10
    ensures '0' <= c <= '9' && c as int - '0' as int == d
  {
    ['0', '1', '2', '3', '4', '5', '6', '7', '8', '9'][d]
  }

  predicate IsDecimal(s: string) {
    forall i :: 0 <= i < |s| ==> '0' <= s[i] <= '9'
  }

  /** The number a string of decimal digits denotes. */
  function DecimalValue(s: string): nat
    requires IsDecimal(s)
  {
    if s == [] then 0 else DecimalValue(s[..|s| - 1]) * 10 + (s[|s| - 1] as int - '0' as int)
  }

  /** `n.ToString()` for a non-negative `int`: decimal digits without leading zeros. */
  function NatToString(n: nat): (r: string)
    ensures |r| >= 1 && IsDecimal(r)
    ensures r[0] == '0' ==> n == 0 && r == "0"
  {
    if n < 10 then [Digit(n)] else NatToString(n / 10) + [Digit(n % 10)]
  }

  /** The digits `NatToString` writes denote the number written. */
  lemma {:induction false} NatToStringValue(n: nat)
    ensures DecimalValue(NatToString(n)) == n
  {
    if n >= 10 {
      var s := NatToString(n);
      assert s[..|s| - 1] == NatToString(n / 10);
      NatToStringValue(n / 10);
    }
  }

  /** `Path.GetFileName`: the characters after the last directory separator. */
  function FileName(path: string, separators: set<char>): (r: string)
    ensures |r| <= |path| && r == path[|path| - |r|..]
    ensures forall i :: 0 <= i < |r| ==> r[i] !in separators
    ensures |r| < |path| ==> path[|path| - |r| - 1] in separators
  {
    if path == [] || path[|path| - 1] in separators then []
    else FileName(path[..|path| - 1], separators) + [path[|path| - 1]]
  }

  /** The file name is exactly what follows the last separator. */
  lemma {:induction false} FileNameAfterLastSeparator(path: string, separators: set<char>, k: nat)
    requires k < |path| && path[k] in separators
    requires forall j :: k < j < |path| ==> path[j] !in separators
    ensures FileName(path, separators) == path[k + 1..]
    decreases |path|
  {
    if k < |path| - 1 {
      var init := path[..|path| - 1];
      FileNameAfterLastSeparator(init, separators, k);
      assert init[k + 1..] + [path[|path| - 1]] == path[k + 1..];
    }
  }

  /** A path without separators is its own file name. */
  lemma {:induction false} FileNameWithoutSeparator(path: string, separators: set<char>)
    requires forall j :: 0 <= j < |path| ==> path[j] !in separators
    ensures FileName(path, separators) == path
    decreases |path|
  {
    if path != [] {
      var init := path[..|path| - 1];
      FileNameWithoutSeparator(init, separators);
      assert init + [path[|path| - 1]] == path;
    }
  }
}
