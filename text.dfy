/** The few string operations of Rust's `str` that the modelled code relies on:
    `contains`, `starts_with`, `ends_with`, `to_lowercase` (on ASCII letters),
    `lines().count()`, `join`, and `format!("{}", n)` for naturals. */
module Text {

  predicate StartsWith(s: string, prefix: string) {
    |prefix| <= |s| && s[..|prefix|] == prefix
  }

  predicate EndsWith(s: string, suffix: string) {
    |suffix| <= |s| && s[|s| - |suffix|..] == suffix
  }

  /** A suffix fixes the last characters of a string. */
  lemma EndsWithTail(s: string, suffix: string, k: nat)
    requires EndsWith(s, suffix) && 1 <= k <= |suffix|
    ensures s[|s| - k] == suffix[|suffix| - k]
  {
    assert s[|s| - |suffix|..][|suffix| - k] == s[|s| - k];
  }

  /** A differing character rules a suffix out. */
  lemma NotEndsWith(s: string, suffix: string, k: nat)
    requires 1 <= k <= |suffix| && k <= |s|
    requires s[|s| - k] != suffix[|suffix| - k]
    ensures !EndsWith(s, suffix)
  {
    if |suffix| <= |s| {
      assert s[|s| - |suffix|..][|suffix| - k] == s[|s| - k];
    }
  }

  /** `s.contains(part)`, scanning the start positions from left to right. */
  predicate Contains(s: string, part: string)
    decreases |s|
  {
    StartsWith(s, part) || (s != [] && Contains(s[1..], part))
  }

  /** `part` occurs in `s` at position `i`. */
  predicate OccursAt(s: string, part: string, i: int) {
    0 <= i && i + |part| <= |s| && s[i..i + |part|] == part
  }

  /** Dropping the first character moves every occurrence one place left. */
  lemma OccursShift(s: string, part: string, i: int)
    requires s != [] && 0 <= i
    ensures OccursAt(s[1..], part, i) <==> OccursAt(s, part, i + 1)
  {
    if i + 1 + |part| <= |s| {
      assert s[1..][i..i + |part|] == s[i + 1..i + 1 + |part|];
    }
  }

  /** The scan agrees with the textbook definition of a substring. */
  lemma {:induction false} ContainsIffOccurs(s: string, part: string)
    ensures Contains(s, part) <==> exists i :: OccursAt(s, part, i)
    decreases |s|
  {
    if StartsWith(s, part) {
      assert OccursAt(s, part, 0);
    } else if s != [] {
      ContainsIffOccurs(s[1..], part);
      if Contains(s[1..], part) {
        var i :| OccursAt(s[1..], part, i);
        OccursShift(s, part, i);
      } else {
        forall i | 0 <= i ensures !OccursAt(s, part, i) {
          if i == 0 && |part| <= |s| {
            assert s[0..|part|] == s[..|part|];
          } else if i > 0 {
            OccursShift(s, part, i - 1);
          }
        }
      }
    }
  }

  /** A string that starts with `part` contains it. */
  lemma StartsWithContains(s: string, part: string)
    requires StartsWith(s, part)
    ensures Contains(s, part)
  {
  }

  /** ASCII lower-casing of one character; other characters are unchanged. */
  function LowerChar(c: char): char {
    if 'A' <= c <= 'Z' then (c as int + 32) as char else c
  }

  function ToLower(s: string): (r: string)
    ensures |r| == |s|
  {
    seq(|s|, i requires 0 <= i < |s| => LowerChar(s[i]))
  }

  /** Lower-casing is idempotent and leaves no ASCII upper-case letter. */
  lemma ToLowerIdempotent(s: string)
    ensures ToLower(ToLower(s)) == ToLower(s)
    ensures forall i :: 0 <= i < |s| ==> !('A' <= ToLower(s)[i] <= 'Z')
  {
  }

  /** Number of '\n' characters in `s`. */
  function NewlineCount(s: string): (n: nat)
    ensures n <= |s|
  {
    if s == [] then 0 else NewlineCount(s[..|s| - 1]) + (if s[|s| - 1] == '\n' then 1 else 0)
  }

  /** `s.lines().count()`: every '\n' ends a line, and a non-empty tail after
      the last '\n' is one more line. */
  function LineCount(s: string): nat {
    NewlineCount(s) + (if s != [] && s[|s| - 1] != '\n' then 1 else 0)
  }

  /** A string has no lines exactly when it is empty, and never more lines
      than characters. */
  lemma LineCountBounds(s: string)
    ensures LineCount(s) == 0 <==> s == []
    ensures LineCount(s) <= |s|
  {
    if s != [] && s[|s| - 1] == '\n' {
      assert NewlineCount(s) >= 1;
    }
    if s != [] && s[|s| - 1] != '\n' {
      assert NewlineCount(s) == NewlineCount(s[..|s| - 1]);
    }
  }

  /** `parts.join(sep)`. */
  function Join(parts: seq<string>, sep: string): string {
    if parts == [] then ""
    else if |parts| == 1 then parts[0]
    else parts[0] + sep + Join(parts[1..], sep)
  }

  function DigitChar(d: nat): char
    requires d < 10
  {
    ('0' as int + d) as char
  }

  /** `format!("{}", n)` for a natural number. */
  function NatToString(n: nat): (r: string)
    ensures r != []
    ensures forall i :: 0 <= i < |r| ==> '0' <= r[i] <= '9'
  {
    if n < 10 then [DigitChar(n)] else NatToString(n / 10) + [DigitChar(n % 10)]
  }
}
