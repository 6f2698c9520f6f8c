/** Display formatting of a route's distance (metres) and duration (seconds),
    as shown in the route information panel of the map. Numbers are exact
    reals here; `Math.round` rounds to the nearest integer with ties going up,
    and `toFixed(1)` keeps one decimal digit, rounding ties up as well. */
module Format {

  import opened Domain

  // ---------------------------------------------------------------------------
  // Decimal rendering of integers and its inverse

  predicate IsDigit(c: char) { '0' <= c <= '9' }

  predicate AllDigits(s: string) {
    forall i :: 0 <= i < |s| ==> IsDigit(s[i])
  }

  function DigitChar(d: nat): (c: char)
    requires d < 10
    ensures IsDigit(c) && c as int - '0' as int == d
  {
    ('0' as int + d) as char
  }

  function DigitValue(c: char): nat
    requires IsDigit(c)
  {
    c as int - '0' as int
  }

  /** Decimal digits of `n`, most significant first, without leading zeros. */
  function NatToString(n: nat): (s: string)
    ensures |s| >= 1 && AllDigits(s)
    ensures s[0] == '0' ==> n == 0
    decreases n
  {
    if n < 10 then [DigitChar(n)] else NatToString(n / 10) + [DigitChar(n % 10)]
  }

  /** How JavaScript writes an integer-valued number into a template string. */
  function IntToString(i: int): (s: string)
    ensures |s| >= 1 && IsDigit(s[|s| - 1])
    ensures i >= 0 ==> AllDigits(s)
  {
    if i < 0 then "-" + NatToString(-i) else NatToString(i)
  }

  /** Value of a string of decimal digits. */
  function ParseNat(s: string): nat
    requires AllDigits(s)
  {
    if s == [] then 0 else ParseNat(s[..|s| - 1]) * 10 + DigitValue(s[|s| - 1])
  }

  /** Value of an optionally signed decimal integer; `None` for anything else. */
  function ParseInt(s: string): Option<int> {
    if |s| >= 2 && s[0] == '-' && AllDigits(s[1..]) then Some(0 - ParseNat(s[1..]))
    else if |s| >= 1 && AllDigits(s) then Some(ParseNat(s))
    else None
  }

  lemma {:induction false} ParseNatToString(n: nat)
    ensures ParseNat(NatToString(n)) == n
    decreases n
  {
    var s := NatToString(n);
    if n < 10 {
      assert s[..|s| - 1] == [];
    } else {
      ParseNatToString(n / 10);
      assert s[..|s| - 1] == NatToString(n / 10);
    }
  }

  lemma {:induction false} ParseIntToString(i: int)
    ensures ParseInt(IntToString(i)) == Some(i)
  {
    var s := IntToString(i);
    if i < 0 {
      assert s[1..] == NatToString(-i);
      ParseNatToString(-i);
    } else {
      ParseNatToString(i);
    }
  }

  // ---------------------------------------------------------------------------
  // Rounding

  /** `Math.round`: the nearest integer, ties towards positive infinity. */
  function RoundHalfUp(x: real): (r: int)
    ensures r as real - 0.5 <= x < r as real + 0.5
  {
    (x + 0.5).Floor
  }

  lemma RoundHalfUpUnique(x: real, k: int)
    requires k as real - 0.5 <= x < k as real + 0.5
    ensures RoundHalfUp(x) == k
  {
  }

  // ---------------------------------------------------------------------------
  // formatDistance

  /** Below 1000 the rounded metre count and "m"; otherwise kilometres with
      exactly one decimal digit and "km". The threshold is tested on the
      unrounded value. */
  function FormatDistance(meters: real): (s: string)
    ensures meters < 1000.0 ==> |s| >= 2 && s[|s| - 1] == 'm' && IsDigit(s[|s| - 2])
    ensures meters >= 1000.0 ==>
      |s| >= 5 && s[|s| - 2..] == "km" && IsDigit(s[|s| - 3]) && s[|s| - 4] == '.' && IsDigit(s[|s| - 5])
  {
    if meters < 1000.0 then
      IntToString(RoundHalfUp(meters)) + "m"
    else
      var tenths := RoundHalfUp(meters / 100.0);
      NatToString(tenths / 10) + "." + [DigitChar(tenths % 10)] + "km"
  }

  /** What a distance label reads as: whole metres, or tenths of a kilometre. */
  datatype Distance = Metres(metres: int) | Kilometres(tenths: nat)

  /** Reads the part of a kilometre label before "km": digits, a point and
      one more digit. */
  function ParseKilometreCount(body: string): Option<Distance> {
    if |body| >= 3 && body[|body| - 2] == '.' && IsDigit(body[|body| - 1])
       && AllDigits(body[..|body| - 2])
    then Some(Kilometres(ParseNat(body[..|body| - 2]) * 10 + DigitValue(body[|body| - 1])))
    else None
  }

  /** Reads a label of the form "<integer>m" or "<digits>.<digit>km". */
  function ParseDistance(s: string): Option<Distance> {
    if |s| >= 2 && s[|s| - 2..] == "km" then
      ParseKilometreCount(s[..|s| - 2])
    else if |s| >= 1 && s[|s| - 1] == 'm' then
      match ParseInt(s[..|s| - 1])
      case Some(v) => Some(Metres(v))
      case None => None
    else None
  }

  /** A metre label reads back as its metre count. */
  lemma {:induction false} MetresLabelReadsBack(k: int)
    ensures ParseDistance(IntToString(k) + "m") == Some(Metres(k))
  {
    var digits := IntToString(k);
    var s := digits + "m";
    assert s[..|s| - 1] == digits;
    assert s[|s| - 2..] == [digits[|digits| - 1], 'm'];
    ParseIntToString(k);
  }

  /** "<digits>.<digit>km" reads as that many tenths of a kilometre. */
  lemma {:induction false} KilometreSuffix(body: string)
    ensures ParseDistance(body + "km") == ParseKilometreCount(body)
  {
    var s := body + "km";
    assert s[..|s| - 2] == body;
    assert s[|s| - 2..] == "km";
  }

  lemma {:induction false} KilometreCount(whole: string, d: char)
    requires |whole| >= 1 && AllDigits(whole) && IsDigit(d)
    ensures ParseKilometreCount(whole + "." + [d]) == Some(Kilometres(ParseNat(whole) * 10 + DigitValue(d)))
  {
    var body := whole + "." + [d];
    assert body[..|body| - 2] == whole;
    assert body[|body| - 2] == '.' && body[|body| - 1] == d;
  }

  lemma {:induction false} ParseKilometres(whole: string, d: char)
    requires |whole| >= 1 && AllDigits(whole) && IsDigit(d)
    ensures ParseDistance(whole + "." + [d] + "km") == Some(Kilometres(ParseNat(whole) * 10 + DigitValue(d)))
  {
    KilometreSuffix(whole + "." + [d]);
    KilometreCount(whole, d);
  }

  /** A kilometre label reads back as its count of tenths. */
  lemma {:induction false} KilometresLabelReadsBack(t: nat)
    ensures ParseDistance(NatToString(t / 10) + "." + [DigitChar(t % 10)] + "km") == Some(Kilometres(t))
  {
    var whole, d := NatToString(t / 10), DigitChar(t % 10);
    ParseKilometres(whole, d);
    ParseNatToString(t / 10);
    assert DigitValue(d) == t % 10;
    assert ParseNat(whole) == t / 10;
    assert (t / 10) * 10 + t % 10 == t;
  }

  /** A distance under 1000 m reads back as the nearest whole metre count; one of
      1000 m or more reads back as the nearest tenth of a kilometre. */
  lemma FormatDistanceReadsBack(meters: real)
    ensures meters < 1000.0 ==>
      exists k: int :: ParseDistance(FormatDistance(meters)) == Some(Metres(k))
                       && k as real - 0.5 <= meters < k as real + 0.5
    ensures meters >= 1000.0 ==>
      exists t: nat :: ParseDistance(FormatDistance(meters)) == Some(Kilometres(t))
                       && t as real / 10.0 - 0.05 <= meters / 1000.0 < t as real / 10.0 + 0.05
  {
    if meters < 1000.0 {
      var k := RoundHalfUp(meters);
      MetresLabelReadsBack(k);
    } else {
      var t := RoundHalfUp(meters / 100.0);
      assert t >= 10;
      KilometresLabelReadsBack(t);
    }
  }

  /** The threshold is tested before rounding: 999.5 <= m < 1000 shows "1000m",
      never "1.0km". */
  lemma DistanceJustBelowThreshold(meters: real)
    requires 999.5 <= meters < 1000.0
    ensures FormatDistance(meters) == "1000m"
  {
    RoundHalfUpUnique(meters, 1000);
    assert NatToString(1) == "1";
    assert NatToString(10) == "10";
    assert NatToString(100) == "100";
    assert NatToString(1000) == "1000";
  }

  lemma DistanceAtThreshold()
    ensures FormatDistance(1000.0) == "1.0km"
  {
    RoundHalfUpUnique(10.0, 10);
    assert NatToString(1) == "1";
  }

  // ---------------------------------------------------------------------------
  // formatDuration

  /** Whole minutes shown for a duration: seconds / 60 rounded half up. */
  function DurationMinutes(seconds: real): (minutes: int)
    ensures minutes as real - 0.5 <= seconds / 60.0 < minutes as real + 0.5
  {
    RoundHalfUp(seconds / 60.0)
  }

  /** Rounds to whole minutes first, then shows "<minutes>min" below 60 minutes
      and "<hours>h <minutes>min" from 60 minutes on. */
  function FormatDuration(seconds: real): (s: string)
    ensures |s| >= 4 && s[|s| - 3..] == "min" && IsDigit(s[|s| - 4])
    ensures 'h' in s <==> DurationMinutes(seconds) >= 60
  {
    var minutes := DurationMinutes(seconds);
    if minutes < 60 then
      IntToString(minutes) + "min"
    else
      NatToString(minutes / 60) + "h " + NatToString(minutes % 60) + "min"
  }

  /** What a duration label reads as. */
  datatype Duration = Minutes(minutes: int) | HoursMinutes(hours: nat, rest: nat)

  /** Index of the first `c` in `s`, or `|s|` when there is none. */
  function IndexOf(s: string, c: char): (k: nat)
    ensures k <= |s|
    ensures forall j :: 0 <= j < k ==> s[j] != c
    ensures k < |s| ==> s[k] == c
  {
    if s == [] then 0
    else if s[0] == c then 0
    else 1 + IndexOf(s[1..], c)
  }

  /** Reads a label of the form "<integer>min" or "<digits>h <digits>min". */
  function ParseDuration(s: string): Option<Duration> {
    if |s| >= 3 && s[|s| - 3..] == "min" then
      var body := s[..|s| - 3];
      var k := IndexOf(body, 'h');
      if k < |body| then
        if 1 <= k && k + 2 < |body| && body[k + 1] == ' '
           && AllDigits(body[..k]) && AllDigits(body[k + 2..])
        then Some(HoursMinutes(ParseNat(body[..k]), ParseNat(body[k + 2..])))
        else None
      else
        match ParseInt(body)
        case Some(v) => Some(Minutes(v))
        case None => None
    else None
  }

  lemma {:induction false} NoLetterInNumber(s: string, c: char)
    requires AllDigits(s) && !IsDigit(c)
    ensures IndexOf(s, c) == |s|
  {
    if s != [] {
      NoLetterInNumber(s[1..], c);
    }
  }

  /** A minute label reads back as its minute count. */
  lemma {:induction false} MinutesLabelReadsBack(minutes: int)
    ensures ParseDuration(IntToString(minutes) + "min") == Some(Minutes(minutes))
  {
    var digits := IntToString(minutes);
    var s := digits + "min";
    assert s[..|s| - 3] == digits;
    assert s[|s| - 3..] == "min";
    if minutes < 0 {
      assert digits[1..] == NatToString(-minutes);
      NoLetterInNumber(digits[1..], 'h');
      assert IndexOf(digits, 'h') == 1 + IndexOf(digits[1..], 'h');
    } else {
      NoLetterInNumber(digits, 'h');
    }
    ParseIntToString(minutes);
  }

  /** An hours-and-minutes label reads back as its hours and minutes. */
  lemma {:induction false} HoursLabelReadsBack(h: nat, r: nat)
    ensures ParseDuration(NatToString(h) + "h " + NatToString(r) + "min") == Some(HoursMinutes(h, r))
  {
    var hs := NatToString(h);
    var rs := NatToString(r);
    var body := hs + "h " + rs;
    var s := body + "min";
    assert s[..|s| - 3] == body;
    assert s[|s| - 3..] == "min";
    assert body == hs + ("h " + rs);
    IndexAfterNumber(hs, "h " + rs);
    assert body[..|hs|] == hs;
    assert body[|hs| + 2..] == rs;
    assert body[|hs| + 1] == ' ';
    ParseNatToString(h);
    ParseNatToString(r);
  }

  /** Under an hour the label reads back as the rounded minute count; from an
      hour on it reads back as hours and minutes that add up to the rounded
      minute count, with fewer than 60 minutes left over. */
  lemma FormatDurationReadsBack(seconds: real)
    ensures var minutes := DurationMinutes(seconds);
      minutes < 60 ==> ParseDuration(FormatDuration(seconds)) == Some(Minutes(minutes))
    ensures var minutes := DurationMinutes(seconds);
      minutes >= 60 ==>
        exists h: nat, r: nat :: ParseDuration(FormatDuration(seconds)) == Some(HoursMinutes(h, r))
                                 && h * 60 + r == minutes && r < 60 && h >= 1
  {
    var minutes := DurationMinutes(seconds);
    if minutes < 60 {
      MinutesLabelReadsBack(minutes);
    } else {
      HoursLabelReadsBack(minutes / 60, minutes % 60);
    }
  }

  lemma {:induction false} IndexAfterNumber(digits: string, rest: string)
    requires AllDigits(digits) && rest != [] && rest[0] == 'h'
    ensures IndexOf(digits + rest, 'h') == |digits|
  {
    if digits != [] {
      assert (digits + rest)[1..] == digits[1..] + rest;
      IndexAfterNumber(digits[1..], rest);
    }
  }

  /** Rounding happens before the hour threshold: 3570 s is 59.5 minutes, which
      rounds to 60 and is shown as "1h 0min". */
  lemma DurationRoundsBeforeThreshold()
    ensures FormatDuration(3570.0) == "1h 0min"
  {
    RoundHalfUpUnique(3570.0 / 60.0, 60);
    assert NatToString(1) == "1";
    assert NatToString(0) == "0";
  }
}
