/**
 * String helpers shared by the rest of the model: the character classes of
 * Python's regular expressions and `str` methods (restricted to ASCII), and
 * the `str` operations the tool relies on (`lower`, `split`, `strip`,
 * `join` and repeated `+=`).
 */
module Text {

  /** `\w` over ASCII: letters, digits and the underscore. */
  predicate IsWordChar(c: char) {
    ('a' <= c <= 'z') || ('A' <= c <= 'Z') || ('0' <= c <= '9') || c == '_'
  }

  /** `\s` and `str.isspace` over ASCII: space, \t \n \v \f \r and the separators 0x1C-0x1F. */
  predicate IsSpace(c: char) {
    c == ' ' || (9 <= c as int <= 13) || (28 <= c as int <= 31)
  }

  /** `str.lower` on one ASCII character. */
  function LowerChar(c: char): (r: char)
    ensures 'A' <= c <= 'Z' ==> r as int == c as int + 32
    ensures !('A' <= c <= 'Z') ==> r == c
    ensures !('A' <= r <= 'Z')
  {
    if 'A' <= c <= 'Z' then (c as int + 32) as char else c
  }

  /** `str.lower` over ASCII: same length, every upper-case letter mapped to lower case. */
  function Lower(s: string): (r: string)
    ensures |r| == |s|
    ensures forall i :: 0 <= i < |s| ==> r[i] == LowerChar(s[i])
  {
    if |s| == 0 then "" else [LowerChar(s[0])] + Lower(s[1..])
  }

  /** `sep.join(parts)`. */
  function Join(parts: seq<string>, sep: string): string
  {
    if |parts| == 0 then ""
    else if |parts| == 1 then parts[0]
    else parts[0] + sep + Join(parts[1..], sep)
  }

  /** `s.split(sep)` for a one-character separator: never empty, and no part holds the separator. */
  function Split(s: string, sep: char): (parts: seq<string>)
    ensures |parts| >= 1
    ensures forall i :: 0 <= i < |parts| ==> sep !in parts[i]
  {
    if |s| == 0 then [""]
    else
      var rest := Split(s[1..], sep);
      if s[0] == sep then [""] + rest
      else [[s[0]] + rest[0]] + rest[1..]
  }

  /** Joining the parts of a split with the separator gives back the original string. */
  lemma {:induction false} SplitJoin(s: string, sep: char)
    ensures Join(Split(s, sep), [sep]) == s
  {
    if |s| > 0 {
      SplitJoin(s[1..], sep);
      var rest := Split(s[1..], sep);
      if s[0] == sep {
        assert Join([""] + rest, [sep]) == "" + [sep] + Join(rest, [sep]);
        assert s == [s[0]] + s[1..];
      } else {
        var parts := [[s[0]] + rest[0]] + rest[1..];
        if |rest| == 1 {
          assert Join(parts, [sep]) == [s[0]] + rest[0];
        } else {
          assert parts[1..] == rest[1..];
          assert Join(parts, [sep]) == [s[0]] + rest[0] + [sep] + Join(rest[1..], [sep]);
        }
        assert s == [s[0]] + s[1..];
      }
    }
  }

  /** The number of occurrences of `c` in `s`. */
  function Occurrences(s: string, c: char): nat
  {
    if |s| == 0 then 0 else (if s[0] == c then 1 else 0) + Occurrences(s[1..], c)
  }

  /** `split` yields one part more than there are separators. */
  lemma {:induction false} SplitCount(s: string, sep: char)
    ensures |Split(s, sep)| == Occurrences(s, sep) + 1
  {
    if |s| > 0 {
      SplitCount(s[1..], sep);
    }
  }

  /** `c` occurs in `s` exactly when it is counted at least once. */
  lemma {:induction false} OccurrencesPositive(s: string, c: char)
    ensures Occurrences(s, c) > 0 <==> c in s
  {
    if |s| > 0 {
      OccurrencesPositive(s[1..], c);
      assert s == [s[0]] + s[1..];
    }
  }

  /** `s.lstrip()`: the longest suffix of `s` that does not start with whitespace. */
  function TrimStart(s: string): (r: string)
    ensures |r| <= |s| && r == s[|s| - |r|..]
    ensures forall i :: 0 <= i < |s| - |r| ==> IsSpace(s[i])
    ensures r == [] || !IsSpace(r[0])
  {
    if |s| > 0 && IsSpace(s[0]) then TrimStart(s[1..]) else s
  }

  /** `s.rstrip()`: the longest prefix of `s` that does not end with whitespace. */
  function TrimEnd(s: string): (r: string)
    ensures |r| <= |s| && r == s[..|r|]
    ensures forall i :: |r| <= i < |s| ==> IsSpace(s[i])
    ensures r == [] || !IsSpace(r[|r| - 1])
  {
    if |s| > 0 && IsSpace(s[|s| - 1]) then TrimEnd(s[..|s| - 1]) else s
  }

  /**
   * `s.strip()`: `s` without its leading and trailing whitespace. The result
   * is the slice of `s` that starts after the leading whitespace run (whose
   * length `TrimStart` fixes), everything outside it is whitespace, and it
   * neither starts nor ends with whitespace.
   */
  function Trim(s: string): (r: string)
    ensures var d := |s| - |TrimStart(s)|;
      d + |r| <= |s| && r == s[d..d + |r|]
      && (forall i :: 0 <= i < d ==> IsSpace(s[i]))
      && (forall i :: d + |r| <= i < |s| ==> IsSpace(s[i]))
    ensures r == [] || (!IsSpace(r[0]) && !IsSpace(r[|r| - 1]))
  {
    var t := TrimStart(s);
    var r := TrimEnd(t);
    assert r == s[|s| - |t|..|s| - |t| + |r|];
    r
  }

  /** A strip is unique: any slice of `s` with only whitespace around it and none at its ends is `Trim(s)`. */
  lemma StripIsTrim(s: string, d: nat, r: string)
    requires d + |r| <= |s| && r == s[d..d + |r|]
    requires forall i :: 0 <= i < d ==> IsSpace(s[i])
    requires forall i :: d + |r| <= i < |s| ==> IsSpace(s[i])
    requires r == [] || (!IsSpace(r[0]) && !IsSpace(r[|r| - 1]))
    ensures r == Trim(s)
  {
    var t := Trim(s);
    var d0 := |s| - |TrimStart(s)|;
    if r == [] {
      assert forall i :: 0 <= i < |s| ==> IsSpace(s[i]);
      assert |t| == 0;
    } else {
      assert !IsSpace(s[d]) && !IsSpace(s[d + |r| - 1]);
      assert d0 <= d < d0 + |t|;
      assert !IsSpace(s[d0]) && !IsSpace(s[d0 + |t| - 1]);
      assert d == d0;
      assert d + |r| == d0 + |t|;
    }
  }

  /** `strip` removes whitespace only: every other character of `s` survives it, in place. */
  lemma TrimKeepsNonSpace(s: string)
    ensures forall c :: c in s && !IsSpace(c) ==> c in Trim(s)
  {
    forall c | c in s && !IsSpace(c) ensures c in Trim(s) {
      var k :| 0 <= k < |s| && s[k] == c;
      TrimKeepsAt(s, k);
    }
  }

  /** A non-whitespace character at position `k` of `s` is at position `k - d` of the strip. */
  lemma TrimKeepsAt(s: string, k: nat)
    requires k < |s| && !IsSpace(s[k])
    ensures var d := |s| - |TrimStart(s)|; d <= k < d + |Trim(s)| && Trim(s)[k - d] == s[k]
  {
    var r := Trim(s);
    var d := |s| - |TrimStart(s)|;
    var c := s[k];
    assert k < d ==> IsSpace(c);
    assert d + |r| <= k ==> IsSpace(c);
    assert r == s[d..d + |r|];
    assert r[k - d] == s[k];
  }

  /** The text built by appending the chunks one after another, left to right. */
  function Concat(chunks: seq<string>): string
  {
    if |chunks| == 0 then "" else Concat(chunks[..|chunks| - 1]) + chunks[|chunks| - 1]
  }

  /** Concatenation distributes over appending chunk sequences. */
  lemma {:induction false} ConcatAppend(a: seq<string>, b: seq<string>)
    ensures Concat(a + b) == Concat(a) + Concat(b)
    decreases |b|
  {
    if |b| > 0 {
      assert (a + b)[..|a + b| - 1] == a + b[..|b| - 1];
      ConcatAppend(a, b[..|b| - 1]);
    } else {
      assert a + b == a;
    }
  }

  /** The length of a concatenation is the sum of the chunk lengths. */
  function TotalLength(chunks: seq<string>): nat
  {
    if |chunks| == 0 then 0 else TotalLength(chunks[..|chunks| - 1]) + |chunks[|chunks| - 1]|
  }

  lemma {:induction false} ConcatLength(chunks: seq<string>)
    ensures |Concat(chunks)| == TotalLength(chunks)
  {
    if |chunks| > 0 {
      ConcatLength(chunks[..|chunks| - 1]);
    }
  }
}
