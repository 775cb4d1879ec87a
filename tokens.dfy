/**
 * The token estimator and the token-count display format
 * (dcx/utils/tokens.py).
 *
 * TOKEN_PATTERN is `\b\w+\b|[^\w\s]`: at each scan position `findall`
 * first tries a whole run of word characters, then a single character that
 * is neither a word character nor whitespace, and otherwise moves on by one
 * character. `FindAll` models that scan on the suffix still to be scanned.
 */
module Tokens {
  import opened Text

  /** `[^\w\s]`: a character that is its own token. */
  predicate IsSymbol(c: char) {
    !IsWordChar(c) && !IsSpace(c)
  }

  /** The length of the run of word characters that `s` starts with. */
  function WordRunLength(s: string): (n: nat)
    ensures n <= |s|
    ensures forall i :: 0 <= i < n ==> IsWordChar(s[i])
    ensures n == |s| || !IsWordChar(s[n])
  {
    if |s| > 0 && IsWordChar(s[0]) then 1 + WordRunLength(s[1..]) else 0
  }

  /**
   * `TOKEN_PATTERN.findall(s)`. A word match only ever starts at the start
   * of the text or right after a non-word character, and it takes the whole
   * run, so both `\b` assertions of the pattern hold wherever it is tried.
   */
  function FindAll(s: string): (tokens: seq<string>)
    decreases |s|
  {
    if |s| == 0 then []
    else if IsWordChar(s[0]) then
      var n := WordRunLength(s);
      [s[..n]] + FindAll(s[n..])
    else if IsSymbol(s[0]) then [s[..1]] + FindAll(s[1..])
    else FindAll(s[1..])
  }

  /**
   * `count_tokens_simple(text)`: the number of maximal runs of word characters
   * plus the number of characters that are neither word characters nor
   * whitespace.
   */
  function CountTokensSimple(text: string): (r: nat)
    ensures r == RunStarts(text, |text|) + Symbols(text, |text|)
  {
    FindAllCountsFrom(text, 0);
    assert text[0..] == text;
    if text == "" then 0 else |FindAll(text)|
  }

  // ---- an independent description of the count, by positions ----

  /** Position `i` is the first character of a maximal run of word characters. */
  predicate RunStartAt(s: string, i: nat)
    requires i < |s|
  {
    IsWordChar(s[i]) && (i == 0 || !IsWordChar(s[i - 1]))
  }

  /** The number of maximal word runs that start before position `n`. */
  function RunStarts(s: string, n: nat): nat
    requires n <= |s|
  {
    if n == 0 then 0 else RunStarts(s, n - 1) + (if RunStartAt(s, n - 1) then 1 else 0)
  }

  /** The number of symbol characters before position `n`. */
  function Symbols(s: string, n: nat): nat
    requires n <= |s|
  {
    if n == 0 then 0 else Symbols(s, n - 1) + (if IsSymbol(s[n - 1]) then 1 else 0)
  }

  /** Inside a run of word characters that started at `k`, no token starts after `k`. */
  lemma {:induction false} NoStartsInsideRun(s: string, k: nat, m: nat)
    requires k < m <= |s|
    requires forall i :: k <= i < m ==> IsWordChar(s[i])
    ensures RunStarts(s, m) == RunStarts(s, k + 1)
    ensures Symbols(s, m) == Symbols(s, k + 1)
    decreases m
  {
    if m > k + 1 {
      NoStartsInsideRun(s, k, m - 1);
      assert !RunStartAt(s, m - 1);
    }
  }

  /** The tokens the scan from `k` still finds, plus the run starts and symbols it has passed. */
  function Pending(s: string, k: nat): nat
    requires k <= |s|
  {
    |FindAll(s[k..])| + RunStarts(s, k) + Symbols(s, k)
  }

  /**
   * Scanning the suffix from position `k`, where `k` does not split a run,
   * finds one token per run start and per symbol in that suffix.
   */
  lemma {:induction false} FindAllCountsFrom(s: string, k: nat)
    requires k <= |s|
    requires k == 0 || k == |s| || !IsWordChar(s[k - 1]) || !IsWordChar(s[k])
    ensures |FindAll(s[k..])| + RunStarts(s, k) + Symbols(s, k) == RunStarts(s, |s|) + Symbols(s, |s|)
    decreases |s| - k
  {
    if k == |s| {
      assert s[k..] == [];
    } else {
      var m := ScanStep(s, k);
      FindAllCountsFrom(s, k + m);
    }
  }

  /** One step of the scan from a boundary `k`: what it finds is counted by the positions it passes. */
  lemma ScanStep(s: string, k: nat) returns (m: nat)
    requires k < |s|
    requires k == 0 || !IsWordChar(s[k - 1]) || !IsWordChar(s[k])
    ensures 1 <= m && k + m <= |s|
    ensures k + m == |s| || !IsWordChar(s[k + m - 1]) || !IsWordChar(s[k + m])
    ensures Pending(s, k) == Pending(s, k + m)
  {
    if IsWordChar(s[k]) {
      m := WordStep(s, k);
    } else {
      OtherStep(s, k);
      m := 1;
    }
  }

  /** A word run starting at a boundary `k` is one token and one run start, and ends at a boundary. */
  lemma WordStep(s: string, k: nat) returns (n: nat)
    requires k < |s| && IsWordChar(s[k])
    requires k == 0 || !IsWordChar(s[k - 1])
    ensures n >= 1 && k + n <= |s| && (k + n == |s| || !IsWordChar(s[k + n]))
    ensures Pending(s, k) == Pending(s, k + n)
  {
    var t := s[k..];
    n := WordRunLength(t);
    assert t[n..] == s[k + n..];
    forall i | k <= i < k + n ensures IsWordChar(s[i]) {
      assert s[i] == t[i - k];
    }
    NoStartsInsideRun(s, k, k + n);
    assert RunStartAt(s, k);
    if k + n < |s| { assert s[k + n] == t[n]; }
  }

  /** A character that is not a word character is a token exactly when it is a symbol, and starts no run. */
  lemma OtherStep(s: string, k: nat)
    requires k < |s| && !IsWordChar(s[k])
    ensures Pending(s, k) == Pending(s, k + 1)
  {
    assert s[k..][1..] == s[k + 1..];
  }

  lemma {:induction false} StartsBound(s: string, n: nat)
    requires n <= |s|
    ensures RunStarts(s, n) + Symbols(s, n) <= n
    ensures (forall i :: 0 <= i < n ==> IsSpace(s[i])) ==> RunStarts(s, n) + Symbols(s, n) == 0
  {
    if n > 0 {
      StartsBound(s, n - 1);
    }
  }

  /** Whitespace is never a token: the count is at most the length, and 0 exactly for blank text. */
  lemma CountBounds(text: string)
    ensures CountTokensSimple(text) <= |text|
    ensures (forall i :: 0 <= i < |text| ==> IsSpace(text[i])) <==> CountTokensSimple(text) == 0
  {
    StartsBound(text, |text|);
    if exists i :: 0 <= i < |text| && !IsSpace(text[i]) {
      FindAllNonEmpty(text);
    }
  }

  /** A text with a non-whitespace character has a token. */
  lemma {:induction false} FindAllNonEmpty(s: string)
    requires exists i :: 0 <= i < |s| && !IsSpace(s[i])
    ensures |FindAll(s)| > 0
    decreases |s|
  {
    if IsSpace(s[0]) {
      var i :| 0 <= i < |s| && !IsSpace(s[i]);
      assert s[1..][i - 1] == s[i];
      FindAllNonEmpty(s[1..]);
    }
  }

  /** Every token found is a run of word characters or a single symbol. */
  lemma {:induction false} FindAllTokenShape(s: string)
    ensures forall i :: 0 <= i < |FindAll(s)| ==> IsWordRun(FindAll(s)[i]) || IsSymbolToken(FindAll(s)[i])
    decreases |s|
  {
    if |s| > 0 {
      if IsWordChar(s[0]) {
        var n := WordRunLength(s);
        FindAllTokenShape(s[n..]);
        assert IsWordRun(s[..n]);
      } else {
        FindAllTokenShape(s[1..]);
      }
    }
  }

  predicate IsWordRun(tok: string) {
    |tok| >= 1 && forall j :: 0 <= j < |tok| ==> IsWordChar(tok[j])
  }

  predicate IsSymbolToken(tok: string) {
    |tok| == 1 && IsSymbol(tok[0])
  }

  /** The tokens, put back together, spell the text without its whitespace. */
  lemma {:induction false} FindAllSpellsText(s: string)
    ensures Concat(FindAll(s)) == NonSpace(s)
    decreases |s|
  {
    if |s| > 0 {
      if IsWordChar(s[0]) {
        var n := WordRunLength(s);
        FindAllSpellsText(s[n..]);
        NonSpaceOfWord(s, n);
        ConcatPrepend(s[..n], FindAll(s[n..]));
      } else {
        FindAllSpellsText(s[1..]);
        assert s == [s[0]] + s[1..];
        NonSpaceCons(s[0], s[1..]);
        if IsSymbol(s[0]) {
          ConcatPrepend(s[..1], FindAll(s[1..]));
        }
      }
    }
  }

  /** The characters of `s` that are not whitespace, in order. */
  function NonSpace(s: string): string
  {
    if |s| == 0 then "" else (if IsSpace(s[0]) then "" else [s[0]]) + NonSpace(s[1..])
  }

  lemma NonSpaceCons(c: char, s: string)
    ensures NonSpace([c] + s) == (if IsSpace(c) then "" else [c]) + NonSpace(s)
  {
    assert ([c] + s)[1..] == s;
  }

  lemma {:induction false} NonSpaceOfWord(s: string, n: nat)
    requires n <= |s|
    requires forall i :: 0 <= i < n ==> IsWordChar(s[i])
    ensures NonSpace(s) == s[..n] + NonSpace(s[n..])
    decreases n
  {
    if n > 0 {
      NonSpaceOfWord(s[1..], n - 1);
      assert s[1..][n - 1..] == s[n..];
      assert s[..n] == [s[0]] + s[1..][..n - 1];
    }
  }

  lemma ConcatPrepend(x: string, rest: seq<string>)
    ensures Concat([x] + rest) == x + Concat(rest)
  {
    ConcatAppend([x], rest);
    assert Concat([x]) == Concat([]) + x;
  }

  /** A whole word run followed by a non-word character (or nothing) is one token. */
  lemma {:induction false} FindAllWord(w: string, rest: string)
    requires IsWordRun(w)
    requires rest == [] || !IsWordChar(rest[0])
    ensures FindAll(w + rest) == [w] + FindAll(rest)
  {
    WordRunOf(w, rest);
    assert (w + rest)[..|w|] == w;
    assert (w + rest)[|w|..] == rest;
  }

  lemma {:induction false} WordRunOf(w: string, rest: string)
    requires forall j :: 0 <= j < |w| ==> IsWordChar(w[j])
    requires rest == [] || !IsWordChar(rest[0])
    ensures WordRunLength(w + rest) == |w|
    decreases |w|
  {
    if |w| > 0 {
      WordRunOf(w[1..], rest);
      assert (w + rest)[1..] == w[1..] + rest;
    }
  }

  /** A leading symbol is a token of its own; leading whitespace is skipped. */
  lemma FindAllOther(c: char, rest: string)
    requires !IsWordChar(c)
    ensures FindAll([c] + rest) == (if IsSymbol(c) then [[c]] else []) + FindAll(rest)
  {
    assert ([c] + rest)[1..] == rest;
    assert ([c] + rest)[..1] == [c];
  }

  /** The values the estimator is documented with: the empty text and two words. */
  lemma CountExampleWords()
    ensures CountTokensSimple("") == 0
    ensures CountTokensSimple("hello world") == 2
  {
    TwoWords("hello", "world");
    assert "hello" + ([' '] + "world") == "hello world";
  }

  lemma TwoWords(w1: string, w2: string)
    requires IsWordRun(w1) && IsWordRun(w2)
    ensures |FindAll(w1 + ([' '] + w2))| == 2
  {
    FindAllWord(w2, "");
    assert w2 + "" == w2;
    FindAllOther(' ', w2);
    FindAllWord(w1, [' '] + w2);
  }

  /** The values the estimator is documented with: words and punctuation. */
  lemma CountExamplePunctuation()
    ensures CountTokensSimple("one, two, three.") == 6
  {
    ThreeCommaWords("one", "two", "three");
    PunctuationText();
  }

  /** The example text as the words and separators `ThreeCommaWords` takes apart. */
  lemma PunctuationText()
    ensures "one" + ([','] + ([' '] + ("two" + ([','] + ([' '] + ("three" + ".")))))) == "one, two, three."
  {
  }

  lemma ThreeCommaWords(w1: string, w2: string, w3: string)
    requires IsWordRun(w1) && IsWordRun(w2) && IsWordRun(w3)
    ensures |FindAll(w1 + ([','] + ([' '] + (w2 + ([','] + ([' '] + (w3 + ".")))))))| == 6
  {
    var r3 := w3 + ".";
    FindAllOther('.', "");
    assert ['.'] + "" == ".";
    FindAllWord(w3, ".");
    var r2 := w2 + ([','] + ([' '] + r3));
    CommaSpace(r3);
    FindAllWord(w2, [','] + ([' '] + r3));
    CommaSpace(r2);
    FindAllWord(w1, [','] + ([' '] + r2));
  }

  /** `", "` in front of a text adds one token. */
  lemma CommaSpace(x: string)
    ensures |FindAll([','] + ([' '] + x))| == 1 + |FindAll(x)|
  {
    FindAllOther(' ', x);
    FindAllOther(',', [' '] + x);
  }

  // ---- format_token_count ----

  function DigitChar(d: nat): (c: char)
    requires d < 10
    ensures '0' <= c <= '9'
  {
    ('0' as int + d) as char
  }

  /** `str(n)` for a non-negative integer: decimal digits without leading zeros. */
  function NatToString(n: nat): (s: string)
    ensures |s| >= 1
    ensures forall i :: 0 <= i < |s| ==> '0' <= s[i] <= '9'
    ensures |s| > 1 ==> s[0] != '0'
  {
    if n < 10 then [DigitChar(n)] else NatToString(n / 10) + [DigitChar(n % 10)]
  }

  /** The value a string of decimal digits denotes. */
  function DigitsValue(s: string): nat
    requires forall i :: 0 <= i < |s| ==> '0' <= s[i] <= '9'
  {
    if |s| == 0 then 0 else 10 * DigitsValue(s[..|s| - 1]) + (s[|s| - 1] as int - '0' as int)
  }

  /** Reading back the decimal rendering gives the number. */
  lemma {:induction false} NatToStringValue(n: nat)
    ensures DigitsValue(NatToString(n)) == n
  {
    if n >= 10 {
      NatToStringValue(n / 10);
      var s := NatToString(n);
      assert s[..|s| - 1] == NatToString(n / 10);
    }
  }

  /** `x` rendered as `f"{x:.1f}"` where `x` is `c / (10 * step)`, taking the nearest tenth. */
  function OneDecimal(c: nat, step: nat): string
    requires step > 0
  {
    var tenths := (c + step / 2) / step;
    NatToString(tenths / 10) + "." + [DigitChar(tenths % 10)]
  }

  /** `format_token_count(count)`. */
  function FormatTokenCount(count: nat): (r: string)
    ensures count < 1000 ==> forall i :: 0 <= i < |r| ==> '0' <= r[i] <= '9'
    ensures 1000 <= count < 1000000 ==> |r| >= 4 && r[|r| - 1] == 'K' && r[|r| - 3] == '.'
    ensures 1000000 <= count ==> |r| >= 4 && r[|r| - 1] == 'M' && r[|r| - 3] == '.'
  {
    if count < 1000 then NatToString(count)
    else if count < 1000000 then OneDecimal(count, 100) + "K"
    else OneDecimal(count, 100000) + "M"
  }

  /** Below 1000 the count is shown as its plain decimal value. */
  lemma FormatSmall(count: nat)
    requires count < 1000
    ensures DigitsValue(FormatTokenCount(count)) == count
  {
    NatToStringValue(count);
  }

  /** The tenths shown are the nearest to `c / (10 * step)` (ties rounded up). */
  lemma OneDecimalNearest(c: nat, step: nat)
    requires step > 0 && step % 2 == 0
    ensures var tenths := (c + step / 2) / step;
      tenths * step <= c + step / 2 < tenths * step + step
  {
  }

  /** Where no rounding happens, the shown value is exactly `count / 1000`. */
  lemma {:induction false} FormatThousands(count: nat)
    requires 1000 <= count < 1000000 && count % 100 == 0
    ensures FormatTokenCount(count) == NatToString(count / 1000) + "." + [DigitChar((count % 1000) / 100)] + "K"
  {
    var tenths := (count + 50) / 100;
    assert tenths == count / 100;
    assert tenths / 10 == count / 1000;
    assert tenths % 10 == (count % 1000) / 100;
  }

  /** Where no rounding happens, the shown value is exactly `count / 1000000`. */
  lemma {:induction false} FormatMillions(count: nat)
    requires 1000000 <= count && count % 100000 == 0
    ensures FormatTokenCount(count) == NatToString(count / 1000000) + "." + [DigitChar((count % 1000000) / 100000)] + "M"
  {
    var tenths := (count + 50000) / 100000;
    assert tenths == count / 100000;
    assert tenths / 10 == count / 1000000;
    assert tenths % 10 == (count % 1000000) / 100000;
  }

  /** The values the formatter is documented with: plain counts. */
  lemma FormatExamplesSmall()
    ensures FormatTokenCount(0) == "0"
    ensures FormatTokenCount(42) == "42"
    ensures FormatTokenCount(999) == "999"
  {
    assert NatToString(42) == NatToString(4) + [DigitChar(2)];
    assert NatToString(999) == NatToString(99) + [DigitChar(9)];
    assert NatToString(99) == NatToString(9) + [DigitChar(9)];
  }

  /** The values the formatter is documented with: thousands. */
  lemma FormatExamplesThousands()
    ensures FormatTokenCount(1000) == "1.0K"
    ensures FormatTokenCount(1500) == "1.5K"
    ensures FormatTokenCount(10500) == "10.5K"
  {
    FormatThousands(1000);
    FormatThousands(1500);
    FormatThousands(10500);
    assert NatToString(10) == NatToString(1) + [DigitChar(0)];
  }

  /** The values the formatter is documented with: millions. */
  lemma FormatExamplesMillions()
    ensures FormatTokenCount(1000000) == "1.0M"
    ensures FormatTokenCount(2500000) == "2.5M"
  {
    FormatMillions(1000000);
    FormatMillions(2500000);
  }
}
