/** Derivation of a build identifier from a notification timestamp:
    `datetime.strptime(ts, '%Y-%m-%dT%H:%M:%SZ').strftime('%Y%m%d%H%M')`
    with the behaviour of CPython 2.7 (lib/automation.py:351-357). */
module Timestamps {
  import opened Wrappers
  import opened Strings

  datatype DateTime = DateTime(year: int, month: int, day: int, hour: int, minute: int, second: int)

  predicate IsLeap(y: int) {
    (y % 4 == 0 && y % 100 != 0) || y % 400 == 0
  }

  function DaysInMonth(y: int, m: int): int
    requires 1 <= m <= 12
  {
    if m == 2 then (if IsLeap(y) then 29 else 28)
    else if m == 4 || m == 6 || m == 9 || m == 11 then 30
    else 31
  }

  /** What `datetime` accepts: a proleptic Gregorian date in years 1..9999
      and a time of day without leap seconds. */
  predicate Valid(dt: DateTime) {
    && 1 <= dt.year <= 9999
    && 1 <= dt.month <= 12
    && 1 <= dt.day <= DaysInMonth(dt.year, dt.month)
    && 0 <= dt.hour <= 23
    && 0 <= dt.minute <= 59
    && 0 <= dt.second <= 59
  }

  /** A field of one or two digits, as the `_strptime` directive patterns
      accept them: two digits within `[lo2, hi]`, or one digit within `[lo1, 9]`. */
  function Field(t: string, lo1: int, lo2: int, hi: int): (r: Option<int>)
    ensures r.Some? ==> (|t| == 1 || |t| == 2) && AllDigits(t) && r.value == DigitsValue(t)
  {
    if |t| == 2 && AllDigits(t) && lo2 <= DigitsValue(t) <= hi then Some(DigitsValue(t))
    else if |t| == 1 && AllDigits(t) && lo1 <= DigitsValue(t) then Some(DigitsValue(t))
    else None
  }

  /** `%d` also accepts a space followed by a non-zero digit. */
  function DayField(t: string): (r: Option<int>) {
    if |t| == 2 && t[0] == ' ' && IsDigit(t[1]) && t[1] != '0' then Some(DigitsValue(t[1..]))
    else Field(t, 1, 1, 31)
  }

  /** The token before the first separator out of `seps`, and what follows that separator. */
  function Token(s: string, seps: set<char>): Option<(string, string)> {
    var i := IndexOfAny(s, seps);
    if i < 0 then None else Some((s[..i], s[i + 1..]))
  }

  /** `time.strptime` with the format `'%Y-%m-%dT%H:%M:%SZ'`.  The literal
      letters match case-insensitively, `%Y` is exactly four digits, the other
      fields take one or two digits, and nothing may follow the `Z`. */
  function Parse(s: string): (r: Option<DateTime>)
    ensures r.Some? ==> Valid(r.value)
  {
    if |s| < 5 || !AllDigits(s[..4]) || s[4] != '-' then None
    else ParseAfterYear(DigitsValue(s[..4]), s[5..])
  }

  /** The rest of `Parse`, after the year and its dash. */
  function ParseAfterYear(year: int, r0: string): (r: Option<DateTime>)
    ensures r.Some? ==> Valid(r.value)
  {
    match Token(r0, {'-'})
    case None => None
    case Some((mt, r1)) =>
      match Token(r1, {'T', 't'})
      case None => None
      case Some((dtok, r2)) =>
        match Token(r2, {':'})
        case None => None
        case Some((ht, r3)) =>
          match Token(r3, {':'})
          case None => None
          case Some((mit, r4)) =>
            match Token(r4, {'Z', 'z'})
            case None => None
            case Some((st, rest)) =>
              if rest != "" then None
              else
                match (Field(mt, 1, 1, 12), DayField(dtok), Field(ht, 0, 0, 23), Field(mit, 0, 0, 59), Field(st, 0, 0, 61))
                case (Some(mo), Some(d), Some(h), Some(mi), Some(se)) =>
                  var dt := DateTime(year, mo, d, h, mi, se);
                  if Valid(dt) then Some(dt) else None
                case _ => None
  }

  function Pad2(n: int): (r: string)
    requires 0 <= n <= 99
    ensures |r| == 2 && AllDigits(r) && DigitsValue(r) == n
  {
    DigitsValueAppend("", n / 10);
    DigitsValueAppend([DigitChar(n / 10)], n % 10);
    [DigitChar(n / 10)] + [DigitChar(n % 10)]
  }

  function Pad4(n: int): (r: string)
    requires 0 <= n <= 9999
    ensures |r| == 4 && AllDigits(r) && DigitsValue(r) == n
  {
    var hi, tens, ones := n / 100, n % 100 / 10, n % 10;
    var a := Pad2(hi);
    var b := a + [DigitChar(tens)];
    DigitsValueAppend(a, tens);
    DigitsValueAppend(b, ones);
    SplitHundreds(n);
    b + [DigitChar(ones)]
  }

  lemma SplitHundreds(n: int)
    requires 0 <= n
    ensures (n / 100 * 10 + n % 100 / 10) * 10 + n % 10 == n
  {
    var hi, lo := n / 100, n % 100;
    assert n == hi * 100 + lo;
    assert lo == lo / 10 * 10 + lo % 10;
    assert n % 10 == lo % 10;
  }

  /** `t`, then the separator `c`, then `rest`. */
  function Joined(t: string, c: char, rest: string): string {
    t + [c] + rest
  }

  /** The canonical zero-padded rendering `YYYY-MM-DDTHH:MM:SSZ`. */
  function Render(dt: DateTime): string
    requires Valid(dt)
  {
    Joined(Pad4(dt.year), '-', Joined(Pad2(dt.month), '-', Joined(Pad2(dt.day), 'T',
      Joined(Pad2(dt.hour), ':', Joined(Pad2(dt.minute), ':', Joined(Pad2(dt.second), 'Z', ""))))))
  }

  /** `strftime('%Y%m%d%H%M')`; CPython 2.7 refuses years before 1900. */
  function BuildIdOf(dt: DateTime): (r: Option<string>)
    requires Valid(dt)
    ensures r.Some? <==> dt.year >= 1900
    ensures r.Some? ==> |r.value| == 12 && AllDigits(r.value)
  {
    if dt.year < 1900 then None
    else Some(Pad4(dt.year) + Pad2(dt.month) + Pad2(dt.day) + Pad2(dt.hour) + Pad2(dt.minute))
  }

  /** The whole derivation; `None` is the swallowed exception. */
  function BuildIdFromTimestamp(ts: string): (r: Option<string>)
    ensures r.Some? ==> |r.value| == 12 && AllDigits(r.value)
    ensures r.Some? ==> Parse(ts).Some? && Parse(ts).value.year >= 1900
  {
    match Parse(ts)
    case Some(dt) => BuildIdOf(dt)
    case None => None
  }

  lemma TokenOf(t: string, c: char, rest: string, seps: set<char>)
    requires c in seps
    requires forall k :: 0 <= k < |t| ==> t[k] !in seps
    ensures Token(Joined(t, c, rest), seps) == Some((t, rest))
  {
    IndexOfAnyAfter(t, c, rest, seps);
    var s := t + [c] + rest;
    assert s[..|t|] == t;
    assert s[|t| + 1..] == rest;
  }

  lemma DigitsNotIn(t: string, seps: set<char>)
    requires AllDigits(t)
    requires forall c :: c in seps ==> !IsDigit(c)
    ensures forall k :: 0 <= k < |t| ==> t[k] !in seps
  {
  }

  /** Parsing the canonical rendering of a valid date-time gives it back. */
  lemma {:induction false} ParseRender(dt: DateTime)
    requires Valid(dt)
    ensures Parse(Render(dt)) == Some(dt)
  {
    var y, mo, d, h, mi, se := Pad4(dt.year), Pad2(dt.month), Pad2(dt.day), Pad2(dt.hour), Pad2(dt.minute), Pad2(dt.second);
    var r4 := Joined(mi, ':', Joined(se, 'Z', ""));
    var r2 := Joined(d, 'T', Joined(h, ':', r4));
    var r1 := Joined(mo, '-', r2);
    var s := Render(dt);
    assert s[..4] == y && s[4] == '-' && s[5..] == r1;
    ParseAfterYearRendered(dt);
  }

  lemma ParseAfterYearRendered(dt: DateTime)
    requires Valid(dt)
    ensures ParseAfterYear(dt.year, Joined(Pad2(dt.month), '-', Joined(Pad2(dt.day), 'T',
      Joined(Pad2(dt.hour), ':', Joined(Pad2(dt.minute), ':', Joined(Pad2(dt.second), 'Z', "")))))) == Some(dt)
  {
    var mo, d, h, mi, se := Pad2(dt.month), Pad2(dt.day), Pad2(dt.hour), Pad2(dt.minute), Pad2(dt.second);
    var r4 := Joined(mi, ':', Joined(se, 'Z', ""));
    var r2 := Joined(d, 'T', Joined(h, ':', r4));
    DigitsNotIn(mo, {'-'});
    TokenOf(mo, '-', r2, {'-'});
    DigitsNotIn(d, {'T', 't'});
    TokenOf(d, 'T', Joined(h, ':', r4), {'T', 't'});
    DigitsNotIn(h, {':'});
    TokenOf(h, ':', r4, {':'});
    DigitsNotIn(mi, {':'});
    TokenOf(mi, ':', Joined(se, 'Z', ""), {':'});
    DigitsNotIn(se, {'Z', 'z'});
    TokenOf(se, 'Z', "", {'Z', 'z'});
    FieldOfPad2(dt.month, 1, 1, 12);
    FieldOfPad2(dt.day, 1, 1, 31);
    FieldOfPad2(dt.hour, 0, 0, 23);
    FieldOfPad2(dt.minute, 0, 0, 59);
    FieldOfPad2(dt.second, 0, 0, 61);
  }

  /** A zero-padded field within range reads back as its value. */
  lemma FieldOfPad2(n: int, lo1: int, lo2: int, hi: int)
    requires 0 <= n <= 99 && lo2 <= n <= hi
    ensures Field(Pad2(n), lo1, lo2, hi) == Some(n)
    ensures DayField(Pad2(n)) == Field(Pad2(n), 1, 1, 31)
  {
  }

  /** The build identifier of a rendered timestamp is its zero-padded
      year, month, day, hour and minute, for every year `strftime` accepts. */
  lemma BuildIdOfRendered(dt: DateTime)
    requires Valid(dt) && dt.year >= 1900
    ensures BuildIdFromTimestamp(Render(dt))
         == Some(Pad4(dt.year) + Pad2(dt.month) + Pad2(dt.day) + Pad2(dt.hour) + Pad2(dt.minute))
  {
    ParseRender(dt);
  }
}
