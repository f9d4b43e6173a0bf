/**
 * The interval-string parser (src/utils/parseTimeFromConfig): the first
 * match of `(\d+)([a-z]+)` gives a decimal count and a unit name, and the
 * unit name is looked up in a three-entry dictionary.
 */
module ParseTime {
  import opened Wrappers
  import opened RealArith
  import TimeConverter

  predicate IsDigit(c: char)
  {
    '0' <= c <= '9'
  }

  predicate IsLower(c: char)
  {
    'a' <= c <= 'z'
  }

  /** The end of the maximal run of digits starting at `p`. */
  function DigitRunEnd(s: string, p: nat): (q: nat)
    requires p <= |s|
    ensures p <= q <= |s|
    ensures forall k :: p <= k < q ==> IsDigit(s[k])
    ensures q == |s| || !IsDigit(s[q])
    decreases |s| - p
  {
    if p < |s| && IsDigit(s[p]) then DigitRunEnd(s, p + 1) else p
  }

  /** The end of the maximal run of lowercase letters starting at `p`. */
  function LowerRunEnd(s: string, p: nat): (q: nat)
    requires p <= |s|
    ensures p <= q <= |s|
    ensures forall k :: p <= k < q ==> IsLower(s[k])
    ensures q == |s| || !IsLower(s[q])
    decreases |s| - p
  {
    if p < |s| && IsLower(s[p]) then LowerRunEnd(s, p + 1) else p
  }

  /**
   * The pattern matches at `p`: a digit starts there and the greedy digit
   * run is followed by a lowercase letter. Giving digits back cannot help,
   * since the character after a shorter run is again a digit.
   */
  predicate MatchesAt(s: string, p: nat)
  {
    p < |s| && IsDigit(s[p]) && DigitRunEnd(s, p) < |s| && IsLower(s[DigitRunEnd(s, p)])
  }

  /** The leftmost position at or after `p` where the pattern matches. */
  function FindMatch(s: string, p: nat): (r: Option<nat>)
    requires p <= |s|
    ensures r.Some? ==> p <= r.value < |s| && MatchesAt(s, r.value)
    ensures r.Some? ==> forall k :: p <= k < r.value ==> !MatchesAt(s, k)
    ensures r.None? ==> forall k :: p <= k ==> !MatchesAt(s, k)
    decreases |s| - p
  {
    if p == |s| then None
    else if MatchesAt(s, p) then Some(p)
    else FindMatch(s, p + 1)
  }

  /** Number(digits) for a string of decimal digits. */
  function DecimalValue(digits: string): nat
    requires forall k :: 0 <= k < |digits| ==> IsDigit(digits[k])
  {
    if digits == [] then 0
    else 10 * DecimalValue(digits[..|digits| - 1]) + DigitValue(digits[|digits| - 1])
  }

  function DigitValue(c: char): (d: nat)
    requires IsDigit(c)
    ensures d < 10
  {
    c as int - '0' as int
  }

  /** measurmentDictionary: only "m", "h" and "d" name a unit. */
  function UnitOf(name: string): (u: Option<int>)
    ensures u.Some? <==> name in {"m", "h", "d"}
    ensures name == "m" ==> u == Some(TimeConverter.MINUTES)
    ensures name == "h" ==> u == Some(TimeConverter.HOURS)
    ensures name == "d" ==> u == Some(TimeConverter.DAYS)
  {
    if name == "m" then Some(TimeConverter.MINUTES)
    else if name == "h" then Some(TimeConverter.HOURS)
    else if name == "d" then Some(TimeConverter.DAYS)
    else None
  }

  /** The parser's result; `timeUnit` is None when the unit name is not in the dictionary. */
  datatype TimeConf = TimeConf(numericValue: nat, timeUnit: Option<int>)

  /**
   * The default export. None stands for the failed destructuring of a
   * missing match, which throws in the source.
   */
  function Parse(time: string): (r: Option<TimeConf>)
    ensures r.None? <==> forall p :: !MatchesAt(time, p)
    ensures r.Some? ==> exists p: nat, q: nat, e: nat ::
      && MatchesAt(time, p)
      && (forall k :: 0 <= k < p ==> !MatchesAt(time, k))
      && q == DigitRunEnd(time, p)
      && e == LowerRunEnd(time, q)
      && r.value == TimeConf(DecimalValue(time[p..q]), UnitOf(time[q..e]))
  {
    match FindMatch(time, 0)
    case None => None
    case Some(p) =>
      var q := DigitRunEnd(time, p);
      var e := LowerRunEnd(time, q);
      Some(TimeConf(DecimalValue(time[p..q]), UnitOf(time[q..e])))
  }

  /** The decimal rendering of `n`, without leading zeros. */
  function DecimalString(n: nat): (s: string)
    ensures |s| > 0
    ensures forall k :: 0 <= k < |s| ==> IsDigit(s[k])
  {
    if n < 10 then ['0' + n as char]
    else DecimalString(n / 10) + ['0' + (n % 10) as char]
  }

  lemma {:induction false} DecimalRoundTrip(n: nat)
    ensures DecimalValue(DecimalString(n)) == n
  {
    var s := DecimalString(n);
    if n >= 10 {
      DecimalRoundTrip(n / 10);
      assert s[..|s| - 1] == DecimalString(n / 10);
    }
  }

  /** A count followed by a unit name parses back to that count and the name's unit. */
  lemma ParseRoundTrip(n: nat, name: string)
    requires |name| > 0 && forall k :: 0 <= k < |name| ==> IsLower(name[k])
    ensures Parse(DecimalString(n) + name) == Some(TimeConf(n, UnitOf(name)))
  {
    var digits := DecimalString(n);
    var s := digits + name;
    DigitRunEndAt(s, 0, |digits|);
    LowerRunEndAt(s, |digits|, |s|);
    assert MatchesAt(s, 0);
    assert s[0..|digits|] == digits;
    assert s[|digits|..|s|] == name;
    DecimalRoundTrip(n);
  }

  lemma {:induction false} DigitRunEndAt(s: string, p: nat, q: nat)
    requires p <= q <= |s|
    requires forall k :: p <= k < q ==> IsDigit(s[k])
    requires q == |s| || !IsDigit(s[q])
    ensures DigitRunEnd(s, p) == q
    decreases q - p
  {
    if p < q {
      DigitRunEndAt(s, p + 1, q);
    }
  }

  lemma {:induction false} LowerRunEndAt(s: string, p: nat, q: nat)
    requires p <= q <= |s|
    requires forall k :: p <= k < q ==> IsLower(s[k])
    requires q == |s| || !IsLower(s[q])
    ensures LowerRunEnd(s, p) == q
    decreases q - p
  {
    if p < q {
      LowerRunEndAt(s, p + 1, q);
    }
  }

  /** "30m" is thirty minutes. */
  lemma ParseMinutes()
    ensures Parse("30m") == Some(TimeConf(30, Some(TimeConverter.MINUTES)))
  {
    assert DecimalString(3) == "3";
    assert DecimalString(30) + "m" == "30m";
    ParseRoundTrip(30, "m");
  }

  /** "1h" is one hour. */
  lemma ParseHours()
    ensures Parse("1h") == Some(TimeConf(1, Some(TimeConverter.HOURS)))
  {
    assert DecimalString(1) + "h" == "1h";
    ParseRoundTrip(1, "h");
  }

  /** "1d" is one day. */
  lemma ParseDays()
    ensures Parse("1d") == Some(TimeConf(1, Some(TimeConverter.DAYS)))
  {
    assert DecimalString(1) + "d" == "1d";
    ParseRoundTrip(1, "d");
  }

  /** "15" has no unit letter after its digits, so there is no match. */
  lemma ParseWithoutUnit()
    ensures Parse("15") == None
  {
    assert DigitRunEnd("15", 1) == 2;
    assert DigitRunEnd("15", 0) == 2;
    assert FindMatch("15", 0) == None;
  }

  /**
   * `convert(numericValue, timeUnit, MILLISECONDS)` of a parsed interval,
   * as both strategies compute their time gap. None stands for the throw of
   * a failed parse or of a unit the converter rejects.
   */
  function IntervalMillis(interval: string): (r: Option<real>)
    ensures r.Some? ==> r.value >= 0.0
    ensures r.Some? ==> Parse(interval).Some? && Parse(interval).value.timeUnit.Some?
  {
    match Parse(interval)
    case None => None
    case Some(conf) =>
      match conf.timeUnit
      case None => None
      case Some(u) =>
        if TimeConverter.IsMeasure(u) then
          var f := TimeConverter.Factor(TimeConverter.MILLISECONDS, u);
          MulNonNegative(ToFixed2(conf.numericValue as real), f);
          Some(TimeConverter.Converted(conf.numericValue as real, u, TimeConverter.MILLISECONDS))
        else None
  }

  /** A count followed by "m", "h" or "d" is that many minutes, hours or days in milliseconds. */
  lemma IntervalOfCount(n: nat, name: string)
    requires name in {"m", "h", "d"}
    ensures UnitOf(name).Some? && TimeConverter.IsMeasure(UnitOf(name).value)
    ensures IntervalMillis(DecimalString(n) + name)
         == Some(TimeConverter.Converted(n as real, UnitOf(name).value, TimeConverter.MILLISECONDS))
  {
    assert forall k :: 0 <= k < |name| ==> IsLower(name[k]);
    ParseRoundTrip(n, name);
  }

  /** A positive count gives a positive gap. */
  lemma IntervalPositive(n: nat, name: string)
    requires name in {"m", "h", "d"} && n > 0
    ensures IntervalMillis(DecimalString(n) + name).Some?
    ensures IntervalMillis(DecimalString(n) + name).value > 0.0
  {
    IntervalOfCount(n, name);
    var u := UnitOf(name).value;
    FixedKeepsIntegral(n as real);
    MulPositive(n as real, TimeConverter.Factor(TimeConverter.MILLISECONDS, u));
  }

  /** "15m" is 900000 ms. */
  lemma FifteenMinutes()
    ensures IntervalMillis("15m") == Some(900000.0)
  {
    assert DecimalString(15) + "m" == "15m";
    IntervalOfCount(15, "m");
    FixedKeepsIntegral(15.0);
    assert TimeConverter.Factor(0, 2) == 60000.0;
  }
}
