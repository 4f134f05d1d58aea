/**
 * The timestamp converter shared by both scripts: the table of cumulative
 * conversion factors and `convert_to_ms`, which reads "[[[[d:]h:]m:]s:]ms"
 * right to left as a weighted sum.
 */
module Timestamp {
  import opened Wrappers
  import opened PyStr
  import opened Values

  /** The literal list the table starts from: ms, s, min, h, d. */
  const BaseFactors: seq<int> := [1, 1000, 60, 60, 24]

  /** The table after the accumulating loop: milliseconds per ms, s, min, h, d. */
  const Factors: seq<int> := [1, 1000, 60000, 3600000, 86400000]

  function Product(s: seq<int>): int
    decreases |s|
  {
    if s == [] then 1 else Product(s[..|s| - 1]) * s[|s| - 1]
  }

  /** Entry `i` is the product of entries `0..i` of `s`. */
  function RunningProducts(s: seq<int>): seq<int> {
    seq(|s|, i requires 0 <= i < |s| => Product(s[..i + 1]))
  }

  /**
   * Builds the factor table as the script does: the list [1, 1000, 60, 60, 24]
   * multiplied in place, each entry by the already updated entry before it.
   */
  method TimeConversionFactors() returns (factors: seq<int>)
    ensures factors == RunningProducts(BaseFactors)
    ensures factors == [1, 1000, 60000, 3600000, 86400000]
  {
    var a := new int[] [1, 1000, 60, 60, 24];
    assert a[..] == BaseFactors;
    for i := 1 to a.Length
      invariant forall k :: 0 <= k < i ==> a[k] == Product(BaseFactors[..k + 1])
      invariant forall k :: i <= k < a.Length ==> a[k] == BaseFactors[k]
    {
      assert BaseFactors[..i + 1][..i] == BaseFactors[..i];
      a[i] := a[i] * a[i - 1];
    }
    factors := a[..];
    FactorsAreRunningProducts();
  }

  /** Each entry of the final table is the running product of the literal list. */
  lemma FactorsAreRunningProducts()
    ensures RunningProducts(BaseFactors) == Factors
  {
    var b := BaseFactors;
    assert b[..1] == [1];
    assert b[..2] == [1, 1000];
    assert b[..3] == [1, 1000, 60];
    assert b[..4] == [1, 1000, 60, 60];
    assert b[..5] == b;
    assert Product([1]) == 1 by { assert [1][..0] == []; }
    assert Product([1, 1000]) == 1000 by { assert [1, 1000][..1] == [1]; }
    assert Product([1, 1000, 60]) == 60000 by { assert [1, 1000, 60][..2] == [1, 1000]; }
    assert Product([1, 1000, 60, 60]) == 3600000 by { assert [1, 1000, 60, 60][..3] == [1, 1000, 60]; }
    assert Product(b) == 86400000 by { assert b[..4] == [1, 1000, 60, 60]; }
  }

  function Reversed<T>(s: seq<T>): (r: seq<T>)
    ensures |r| == |s|
    ensures forall i :: 0 <= i < |s| ==> r[i] == s[|s| - 1 - i]
    decreases |s|
  {
    if s == [] then [] else [s[|s| - 1]] + Reversed(s[..|s| - 1])
  }

  /**
   * `sum(int(a) * f for a, f in zip(fields, factors))`: pairs up to the
   * shorter list; a field that `int()` rejects raises `ValueError`.
   */
  function WeightedSum(fields: seq<string>, factors: seq<int>): Result<int, Fault>
    decreases |fields|
  {
    if fields == [] || factors == [] then Success(0)
    else
      var a := ParseInt(fields[0]);
      var rest := WeightedSum(fields[1..], factors[1..]);
      if a.None? || rest.Failure? then Failure(ValueError)
      else Success(a.value * factors[0] + rest.value)
  }

  /** The string branch of `convert_to_ms`. */
  function ConvertString(s: string): Result<int, Fault> {
    WeightedSum(Reversed(Split(s, ':')), Factors)
  }

  /**
   * `convert_to_ms` of mp3_tagging.py: an int (a bool is one in Python) gives
   * its absolute value, a string its weighted sum, anything else 0.
   */
  function ConvertToMs(timestamp: PyValue): (r: Result<int, Fault>)
    ensures timestamp.Int? ==> r.Success? && r.value >= 0 && (r.value == timestamp.n || r.value == -timestamp.n)
    ensures timestamp.Bool? ==> r == Success(if timestamp.b then 1 else 0)
    ensures !(timestamp.Int? || timestamp.Bool? || timestamp.Str?) ==> r == Success(0)
  {
    match timestamp
    case Int(n) => Success(if n < 0 then -n else n)
    case Bool(b) => Success(if b then 1 else 0)
    case Str(s) => ConvertString(s)
    case _ => Success(0)
  }

  /**
   * `convert_to_ms` of mp3_metadata.py: only strings have `.split`; any
   * other value raises `AttributeError`.
   */
  function ConvertDuration(duration: PyValue): (r: Result<int, Fault>)
    ensures duration.Str? ==> r == ConvertToMs(duration)
    ensures !duration.Str? ==> r == Failure(AttributeError)
  {
    if duration.Str? then ConvertString(duration.s) else Failure(AttributeError)
  }

  // ----- what the weighted sum means -----

  /** The conversion fails exactly when one of the paired fields is not an integer. */
  lemma {:induction false} WeightedSumFails(fields: seq<string>, factors: seq<int>)
    ensures WeightedSum(fields, factors).Failure? <==>
      exists k :: 0 <= k < |fields| && k < |factors| && ParseInt(fields[k]).None?
    decreases |fields|
  {
    if fields != [] && factors != [] {
      WeightedSumFails(fields[1..], factors[1..]);
      if ParseInt(fields[0]).Some? && WeightedSum(fields[1..], factors[1..]).Failure? {
        var k :| 0 <= k < |fields| - 1 && k < |factors| - 1 && ParseInt(fields[1..][k]).None?;
        assert ParseInt(fields[k + 1]).None?;
      }
      if exists k :: 0 <= k < |fields| && k < |factors| && ParseInt(fields[k]).None? {
        var k :| 0 <= k < |fields| && k < |factors| && ParseInt(fields[k]).None?;
        if k > 0 {
          assert ParseInt(fields[1..][k - 1]).None?;
        }
      }
    }
  }

  /** Fields beyond the last factor are never parsed. */
  lemma {:induction false} WeightedSumIgnoresSurplus(fields: seq<string>, more: seq<string>, factors: seq<int>)
    requires |fields| >= |factors|
    ensures WeightedSum(fields + more, factors) == WeightedSum(fields, factors)
    decreases |factors|
  {
    if factors != [] {
      assert (fields + more)[0] == fields[0];
      assert (fields + more)[1..] == fields[1..] + more;
      WeightedSumIgnoresSurplus(fields[1..], more, factors[1..]);
    }
  }

  lemma ReversedConcat<T>(a: seq<T>, b: seq<T>)
    ensures Reversed(a + b) == Reversed(b) + Reversed(a)
  {
    assert forall i :: 0 <= i < |a + b| ==> Reversed(a + b)[i] == (Reversed(b) + Reversed(a))[i];
  }

  /**
   * Only the rightmost five colon fields count: whatever stands left of the
   * day field, numeric or not, leaves the result unchanged.
   */
  lemma OnlyRightmostFiveFields(prefix: string, s: string)
    requires |Split(s, ':')| >= 5
    ensures ConvertString(prefix + ":" + s) == ConvertString(s)
  {
    SplitConcat(prefix, ':', s);
    ReversedConcat(Split(prefix, ':'), Split(s, ':'));
    WeightedSumIgnoresSurplus(Reversed(Split(s, ':')), Reversed(Split(prefix, ':')), Factors);
  }

  /** One of the rightmost five fields is not an integer. */
  predicate NonIntegerField(fields: seq<string>) {
    exists j :: 0 <= j < |fields| && |fields| - 5 <= j && ParseInt(fields[j]).None?
  }

  /**
   * A timestamp string fails to convert exactly when one of its rightmost
   * five fields is not an integer -- an empty field included.
   */
  lemma ConvertStringFails(s: string)
    ensures ConvertString(s).Failure? <==> NonIntegerField(Split(s, ':'))
  {
    ReversedSumFails(Split(s, ':'));
  }

  /** The fields read right to left fail exactly when one of the last five does. */
  lemma ReversedSumFails(fields: seq<string>)
    ensures WeightedSum(Reversed(fields), Factors).Failure? <==> NonIntegerField(fields)
  {
    var r := Reversed(fields);
    assert |Factors| == 5;
    WeightedSumFails(r, Factors);
    if exists k :: 0 <= k < |r| && k < 5 && ParseInt(r[k]).None? {
      var k :| 0 <= k < |r| && k < 5 && ParseInt(r[k]).None?;
      assert ParseInt(fields[|fields| - 1 - k]).None?;
    }
    if NonIntegerField(fields) {
      var j :| 0 <= j < |fields| && |fields| - 5 <= j && ParseInt(fields[j]).None?;
      assert ParseInt(r[|fields| - 1 - j]).None?;
    }
  }

  /** One step of the sum: the first field times the first factor, plus the rest. */
  lemma WeightedSumStep(fields: seq<string>, factors: seq<int>, a: int, rest: int)
    requires fields != [] && factors != []
    requires ParseInt(fields[0]) == Some(a)
    requires WeightedSum(fields[1..], factors[1..]) == Success(rest)
    ensures WeightedSum(fields, factors).Success?
    ensures WeightedSum(fields, factors).value == a * factors[0] + rest
  {
    assert WeightedSum(fields, factors).value == ParseInt(fields[0]).value * factors[0] + rest;
  }

  /** The decimal numerals of `ns`, as fields. */
  function Numerals(ns: seq<nat>): (fields: seq<string>)
    ensures |fields| == |ns|
    ensures forall k :: 0 <= k < |ns| ==> fields[k] == NatToString(ns[k])
  {
    seq(|ns|, k requires 0 <= k < |ns| => NatToString(ns[k]))
  }

  /** `sum(v * f for v, f in zip(values, factors))` over numbers. */
  function Weigh(values: seq<int>, factors: seq<int>): int
    decreases |values|
  {
    if values == [] || factors == [] then 0
    else values[0] * factors[0] + Weigh(values[1..], factors[1..])
  }

  lemma {:induction false} WeightedSumOfNumerals(values: seq<nat>, fields: seq<string>, factors: seq<int>)
    requires fields == Numerals(values)
    ensures WeightedSum(fields, factors) == Success(Weigh(values, factors))
    decreases |values|
  {
    if values != [] && factors != [] {
      assert fields[1..] == Numerals(values[1..]);
      WeightedSumOfNumerals(values[1..], fields[1..], factors[1..]);
      ParseIntOfNat(values[0]);
      WeightedSumStep(fields, factors, values[0], Weigh(values[1..], factors[1..]));
    }
  }

  lemma NoColonInNat(n: nat)
    ensures ':' !in NatToString(n)
  {
    NatToStringDigits(n);
  }

  /**
   * Round trip: joining numbers with ':' and converting gives their
   * right-to-left weighted sum -- each field times the factor of its
   * position from the right, fields beyond the fifth not counting.
   */
  lemma ConvertNumerals(ns: seq<nat>)
    requires |ns| >= 1
    ensures ConvertString(Join(Numerals(ns), ':')) == Success(Weigh(Reversed(ns), Factors))
  {
    var fields := Numerals(ns);
    forall k | 0 <= k < |ns| ensures ':' !in fields[k] {
      NoColonInNat(ns[k]);
    }
    SplitJoin(fields, ':');
    ReversedNumerals(ns);
    WeightedSumOfNumerals(Reversed(ns), Reversed(fields), Factors);
  }

  lemma ReversedNumerals(ns: seq<nat>)
    ensures Reversed(Numerals(ns)) == Numerals(Reversed(ns))
  {
    var a, b := Reversed(Numerals(ns)), Numerals(Reversed(ns));
    forall k | 0 <= k < |ns| ensures a[k] == b[k] {
      calc {
        a[k];
        Numerals(ns)[|ns| - 1 - k];
        NatToString(ns[|ns| - 1 - k]);
        NatToString(Reversed(ns)[k]);
        b[k];
      }
    }
  }

  /** "d:h:m:s:ms" */
  function FormatTimestamp(d: nat, h: nat, m: nat, sec: nat, ms: nat): string {
    Join([NatToString(d), NatToString(h), NatToString(m), NatToString(sec), NatToString(ms)], ':')
  }

  lemma WeighCons(v: int, vs: seq<int>, f: int, fs: seq<int>)
    ensures Weigh([v] + vs, [f] + fs) == v * f + Weigh(vs, fs)
  {
    assert ([v] + vs)[1..] == vs;
    assert ([f] + fs)[1..] == fs;
  }

  /** The weighted sums against the hour and day factors. */
  lemma WeighHoursDays(h: int, d: int)
    ensures Weigh([h], Factors[3..]) == h * 3600000
    ensures Weigh([h, d], Factors[3..]) == h * 3600000 + d * 86400000
  {
    assert Factors[3..] == [3600000] + [86400000];
    WeighCons(d, [], 86400000, []);
    WeighCons(h, [d], 3600000, [86400000]);
    WeighCons(h, [], 3600000, [86400000]);
  }

  /** The weighted sums against the minute, hour and day factors. */
  lemma WeighMinutes(m: int, h: int, d: int)
    ensures Weigh([m], Factors[2..]) == m * 60000
    ensures Weigh([m, h], Factors[2..]) == m * 60000 + h * 3600000
    ensures Weigh([m, h, d], Factors[2..]) == m * 60000 + h * 3600000 + d * 86400000
  {
    assert Factors[2..] == [60000] + Factors[3..];
    WeighHoursDays(h, d);
    WeighCons(m, [h, d], 60000, Factors[3..]);
    WeighCons(m, [h], 60000, Factors[3..]);
    WeighCons(m, [], 60000, Factors[3..]);
  }

  /** The weighted sums against every factor but the first. */
  lemma WeighSeconds(sec: int, m: int, h: int, d: int)
    ensures Weigh([sec], Factors[1..]) == sec * 1000
    ensures Weigh([sec, m], Factors[1..]) == sec * 1000 + m * 60000
    ensures Weigh([sec, m, h], Factors[1..]) == sec * 1000 + m * 60000 + h * 3600000
    ensures Weigh([sec, m, h, d], Factors[1..]) == sec * 1000 + m * 60000 + h * 3600000 + d * 86400000
  {
    assert Factors[1..] == [1000] + Factors[2..];
    WeighMinutes(m, h, d);
    WeighCons(sec, [m, h, d], 1000, Factors[2..]);
    WeighCons(sec, [m, h], 1000, Factors[2..]);
    WeighCons(sec, [m], 1000, Factors[2..]);
    WeighCons(sec, [], 1000, Factors[2..]);
  }

  /** The weighted sum of up to five values, written out. */
  lemma WeighFactors(ms: int, sec: int, m: int, h: int, d: int)
    ensures Weigh([ms], Factors) == ms
    ensures Weigh([ms, sec], Factors) == ms + sec * 1000
    ensures Weigh([ms, sec, m], Factors) == ms + sec * 1000 + m * 60000
    ensures Weigh([ms, sec, m, h], Factors) == ms + sec * 1000 + m * 60000 + h * 3600000
    ensures Weigh([ms, sec, m, h, d], Factors)
         == ms + sec * 1000 + m * 60000 + h * 3600000 + d * 86400000
  {
    assert Factors == [1] + Factors[1..];
    WeighSeconds(sec, m, h, d);
    WeighCons(ms, [sec, m, h, d], 1, Factors[1..]);
    WeighCons(ms, [sec, m, h], 1, Factors[1..]);
    WeighCons(ms, [sec, m], 1, Factors[1..]);
    WeighCons(ms, [sec], 1, Factors[1..]);
    WeighCons(ms, [], 1, Factors[1..]);
  }

  /** Converting a formatted "d:h:m:s:ms" gives back its length in milliseconds. */
  lemma ConvertFormatted(d: nat, h: nat, m: nat, sec: nat, ms: nat)
    ensures ConvertString(FormatTimestamp(d, h, m, sec, ms))
         == Success(d * 86400000 + h * 3600000 + m * 60000 + sec * 1000 + ms)
  {
    var ns := [d, h, m, sec, ms];
    assert Numerals(ns) == [NatToString(d), NatToString(h), NatToString(m), NatToString(sec), NatToString(ms)];
    ConvertNumerals(ns);
    assert Reversed(ns) == [ms, sec, m, h, d];
    WeighFactors(ms, sec, m, h, d);
  }
}
