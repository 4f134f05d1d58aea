/**
 * The Python string operations the two scripts rely on: `str.split`,
 * `str.endswith`, `str.replace`, `in` on strings, `int(str)` and the
 * decimal formatting of `f"ch{i}"`.
 */
module PyStr {
  import opened Wrappers

  // ----- characters -----

  predicate IsDigit(c: char) { '0' <= c <= '9' }

  /** The ASCII characters that `int()` skips around its digits. */
  predicate IsSpace(c: char) {
    c == ' ' || '\t' <= c <= '\r' || '\U{1C}' <= c <= '\U{1F}'
  }

  function DigitValue(c: char): nat
    requires IsDigit(c)
  {
    c as int - '0' as int
  }

  function DigitChar(d: nat): (c: char)
    requires d < 10
  {
    ('0' as int + d) as char
  }

  // ----- endswith, in, replace -----

  /** `s.endswith(suffix)` */
  predicate EndsWith(s: string, suffix: string) {
    |suffix| <= |s| && s[|s| - |suffix|..] == suffix
  }

  /** `p in s` for two strings */
  predicate HasSubstring(s: string, p: string)
    decreases |s|
  {
    p <= s || (|s| > 0 && HasSubstring(s[1..], p))
  }

  /** `s.replace(pat, rep)`: every non-overlapping occurrence, scanning left to right. */
  function ReplaceAll(s: string, pat: string, rep: string): string
    requires |pat| > 0
    decreases |s|
  {
    if |s| < |pat| then s
    else if s[..|pat|] == pat then rep + ReplaceAll(s[|pat|..], pat, rep)
    else [s[0]] + ReplaceAll(s[1..], pat, rep)
  }

  /** Replacing a pattern that does not occur leaves the string as it is. */
  lemma {:induction false} ReplaceAllAbsent(s: string, pat: string, rep: string)
    requires |pat| > 0 && !HasSubstring(s, pat)
    ensures ReplaceAll(s, pat, rep) == s
    decreases |s|
  {
    if |s| >= |pat| {
      assert s[..|pat|] == pat ==> pat <= s;
      ReplaceAllAbsent(s[1..], pat, rep);
    }
  }

  /** With a longer replacement, the result grows exactly when the pattern occurs. */
  lemma {:induction false} ReplaceAllGrows(s: string, pat: string, rep: string)
    requires 0 < |pat| < |rep|
    ensures |ReplaceAll(s, pat, rep)| >= |s|
    ensures HasSubstring(s, pat) <==> |ReplaceAll(s, pat, rep)| > |s|
    decreases |s|
  {
    if |s| < |pat| {
      NoRoomNoSubstring(s, pat);
    } else if s[..|pat|] == pat {
      assert pat <= s;
      ReplaceAllGrows(s[|pat|..], pat, rep);
    } else {
      assert !(pat <= s);
      ReplaceAllGrows(s[1..], pat, rep);
    }
  }

  lemma {:induction false} NoRoomNoSubstring(s: string, p: string)
    requires |s| < |p|
    ensures !HasSubstring(s, p)
    decreases |s|
  {
    if |s| > 0 {
      NoRoomNoSubstring(s[1..], p);
    }
  }

  lemma EndsWithTail(s: string, k: nat, suffix: string)
    requires EndsWith(s, suffix) && k <= |s| - |suffix|
    ensures EndsWith(s[k..], suffix)
  {
    assert s[k..][|s[k..]| - |suffix|..] == s[|s| - |suffix|..];
  }

  lemma EndsWithPrepend(p: string, r: string, suffix: string)
    requires EndsWith(r, suffix)
    ensures EndsWith(p + r, suffix)
  {
    assert (p + r)[|p + r| - |suffix|..] == r[|r| - |suffix|..];
  }

  /** ".mp3" cannot overlap itself: a second occurrence starts 4 or more characters later. */
  lemma Mp3NoOverlap(s: string)
    requires |s| > 4 && s[..4] == ".mp3" && EndsWith(s, ".mp3")
    ensures |s| >= 8
  {
    var d := |s| - 4;
    assert s[d] == s[|s| - 4..][0] == '.';
  }

  /**
   * A name ending in ".mp3" still ends in "_tagged.mp3" after every ".mp3" in
   * it has been replaced: the final occurrence is always one of those
   * replaced, because ".mp3" cannot overlap itself.
   */
  lemma {:induction false} TaggedNameEnding(s: string)
    requires EndsWith(s, ".mp3")
    ensures EndsWith(ReplaceAll(s, ".mp3", "_tagged.mp3"), "_tagged.mp3")
    decreases |s|
  {
    var pat, rep := ".mp3", "_tagged.mp3";
    if s[..4] == pat {
      if |s| == 4 {
        assert ReplaceAll(s, pat, rep) == rep + ReplaceAll([], pat, rep);
      } else {
        Mp3NoOverlap(s);
        EndsWithTail(s, 4, pat);
        TaggedNameEnding(s[4..]);
        EndsWithPrepend(rep, ReplaceAll(s[4..], pat, rep), rep);
      }
    } else {
      EndsWithTail(s, 1, pat);
      TaggedNameEnding(s[1..]);
      EndsWithPrepend([s[0]], ReplaceAll(s[1..], pat, rep), rep);
    }
  }

  // ----- split and join -----

  /** `s.split(sep)` for a one-character separator: always at least one field. */
  function Split(s: string, sep: char): (fields: seq<string>)
    ensures |fields| >= 1
    decreases |s|
  {
    if s == [] then [""]
    else
      var rest := Split(s[1..], sep);
      if s[0] == sep then [""] + rest else [[s[0]] + rest[0]] + rest[1..]
  }

  /** `sep.join(fields)` */
  function Join(fields: seq<string>, sep: char): string
    requires |fields| >= 1
    decreases |fields|
  {
    if |fields| == 1 then fields[0] else fields[0] + [sep] + Join(fields[1..], sep)
  }

  /** An explicit separator splits the string into the fields of either side. */
  lemma {:induction false} SplitConcat(p: string, sep: char, s: string)
    ensures Split(p + [sep] + s, sep) == Split(p, sep) + Split(s, sep)
    decreases |p|
  {
    if p == [] {
      assert p + [sep] + s == [sep] + s;
      assert ([sep] + s)[1..] == s;
    } else {
      assert (p + [sep] + s)[1..] == p[1..] + [sep] + s;
      SplitConcat(p[1..], sep, s);
    }
  }

  /** A string without the separator is a single field. */
  lemma {:induction false} SplitField(w: string, sep: char)
    requires sep !in w
    ensures Split(w, sep) == [w]
    decreases |w|
  {
    if w != [] {
      assert w[0] in w;
      assert forall c :: c in w[1..] ==> c in w;
      SplitField(w[1..], sep);
      assert [w[0]] + w[1..] == w;
    }
  }

  /** Splitting undoes joining, when no field holds the separator. */
  lemma {:induction false} SplitJoin(fields: seq<string>, sep: char)
    requires |fields| >= 1
    requires forall k :: 0 <= k < |fields| ==> sep !in fields[k]
    ensures Split(Join(fields, sep), sep) == fields
    decreases |fields|
  {
    SplitField(fields[0], sep);
    if |fields| > 1 {
      SplitJoin(fields[1..], sep);
      SplitConcat(fields[0], sep, Join(fields[1..], sep));
    }
  }

  /** Joining undoes splitting, and no field of a split holds the separator. */
  lemma {:induction false} JoinSplit(s: string, sep: char)
    ensures Join(Split(s, sep), sep) == s
    ensures forall k :: 0 <= k < |Split(s, sep)| ==> sep !in Split(s, sep)[k]
    decreases |s|
  {
    if s != [] {
      JoinSplit(s[1..], sep);
      var rest := Split(s[1..], sep);
      if s[0] == sep {
        assert Split(s, sep) == [""] + rest;
        assert ([""] + rest)[1..] == rest;
      } else {
        var fields := Split(s, sep);
        assert fields == [[s[0]] + rest[0]] + rest[1..];
        assert fields[1..] == rest[1..];
        if |rest| > 1 {
          assert Join(rest, sep) == rest[0] + [sep] + Join(rest[1..], sep);
        }
        forall k | 0 <= k < |fields| ensures sep !in fields[k] {
          if k > 0 {
            assert fields[k] == rest[k];
          } else {
            assert fields[0] == [s[0]] + rest[0];
          }
        }
      }
    }
  }

  // ----- int(str) -----

  function StripLeft(s: string): string
    decreases |s|
  {
    if |s| > 0 && IsSpace(s[0]) then StripLeft(s[1..]) else s
  }

  function StripRight(s: string): string
    decreases |s|
  {
    if |s| > 0 && IsSpace(s[|s| - 1]) then StripRight(s[..|s| - 1]) else s
  }

  function Strip(s: string): string {
    StripRight(StripLeft(s))
  }

  predicate DigitsOrUnderscores(s: string) {
    forall i :: 0 <= i < |s| ==> IsDigit(s[i]) || s[i] == '_'
  }

  /**
   * The digit part `int()` accepts: decimal digits, with single underscores
   * allowed between two digits.
   */
  predicate IsDigitGroup(s: string) {
    && |s| > 0
    && IsDigit(s[0])
    && IsDigit(s[|s| - 1])
    && DigitsOrUnderscores(s)
    && (forall i :: 0 <= i < |s| - 1 ==> IsDigit(s[i]) || IsDigit(s[i + 1]))
  }

  /** The number a digit group denotes; underscores carry no value. */
  function DigitsValue(s: string): nat
    requires DigitsOrUnderscores(s)
    decreases |s|
  {
    if s == [] then 0
    else
      var init := DigitsValue(s[..|s| - 1]);
      if s[|s| - 1] == '_' then init else init * 10 + DigitValue(s[|s| - 1])
  }

  /**
   * `int(s)`: surrounding white space, an optional sign, then a digit group.
   * `None` stands for the `ValueError` that anything else raises.
   */
  function ParseInt(s: string): Option<int> {
    var t := Strip(s);
    if |t| > 0 && (t[0] == '+' || t[0] == '-') then
      if IsDigitGroup(t[1..]) then
        var v: int := DigitsValue(t[1..]);
        Some(if t[0] == '-' then -v else v)
      else None
    else if IsDigitGroup(t) then Some(DigitsValue(t))
    else None
  }

  /** `str(n)` for a natural number. */
  function NatToString(n: nat): string
    decreases n
  {
    if n < 10 then [DigitChar(n)] else NatToString(n / 10) + [DigitChar(n % 10)]
  }

  lemma {:induction false} NatToStringDigits(n: nat)
    ensures |NatToString(n)| > 0
    ensures forall i :: 0 <= i < |NatToString(n)| ==> IsDigit(NatToString(n)[i])
    decreases n
  {
    if n >= 10 {
      NatToStringDigits(n / 10);
    }
  }

  /** Reading back the digits of `str(n)` gives `n`. */
  lemma {:induction false} DigitsValueOfNat(n: nat)
    ensures DigitsOrUnderscores(NatToString(n))
    ensures DigitsValue(NatToString(n)) == n
    decreases n
  {
    NatToStringDigits(n);
    var s := NatToString(n);
    if n < 10 {
      assert s[..0] == [];
    } else {
      DigitsValueOfNat(n / 10);
      assert s[..|s| - 1] == NatToString(n / 10);
    }
  }

  lemma StripDigits(s: string)
    requires |s| > 0 && forall i :: 0 <= i < |s| ==> IsDigit(s[i])
    ensures Strip(s) == s
  {
    assert !IsSpace(s[0]) && !IsSpace(s[|s| - 1]);
  }

  /** `int(str(n)) == n` */
  lemma ParseIntOfNat(n: nat)
    ensures ParseInt(NatToString(n)) == Some(n)
  {
    NatToStringDigits(n);
    DigitsValueOfNat(n);
    StripDigits(NatToString(n));
  }

  /** `int("-" + str(n)) == -n` */
  lemma ParseIntOfNegative(n: nat)
    ensures ParseInt("-" + NatToString(n)) == Some(-(n as int))
  {
    var s := NatToString(n);
    NatToStringDigits(n);
    DigitsValueOfNat(n);
    var t := "-" + s;
    assert t[1..] == s;
    assert !IsSpace(t[0]) && !IsSpace(t[|t| - 1]);
    assert Strip(t) == t;
  }

  /** An empty or all-blank field is a `ValueError`, never 0. */
  lemma ParseIntBlank(s: string)
    requires forall i :: 0 <= i < |s| ==> IsSpace(s[i])
    ensures ParseInt(s) == None
  {
    StripLeftBlank(s);
  }

  lemma {:induction false} StripLeftBlank(s: string)
    requires forall i :: 0 <= i < |s| ==> IsSpace(s[i])
    ensures StripLeft(s) == []
    decreases |s|
  {
    if |s| > 0 {
      StripLeftBlank(s[1..]);
    }
  }

  // ----- f"ch{i}" -----

  /** The synthetic element id of the `i`-th chapter. */
  function ChapterId(i: nat): string {
    "ch" + NatToString(i)
  }

  /** Distinct chapters get distinct element ids. */
  lemma ChapterIdInjective(i: nat, j: nat)
    ensures ChapterId(i) == ChapterId(j) <==> i == j
  {
    if ChapterId(i) == ChapterId(j) {
      assert NatToString(i) == ChapterId(i)[2..];
      assert NatToString(j) == ChapterId(j)[2..];
      ParseIntOfNat(i);
      ParseIntOfNat(j);
    }
  }
}
