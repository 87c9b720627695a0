/**
 * Rendering of integers the way Swift's string interpolation and
 * `String(format: "%d:%02d")` render them, the two duration formatters of the
 * view models, and readers that parse those renderings back (the partners of
 * the round-trip lemmas).
 */
module Formatting {
  import opened Foundation

  predicate IsDigit(c: char) {
    '0' <= c <= '9'
  }

  predicate AllDigits(s: string) {
    forall i :: 0 <= i < |s| ==> IsDigit(s[i])
  }

  function DigitChar(d: nat): (c: char)
    requires d < 10
    ensures IsDigit(c)
  {
    ('0' as int + d) as char
  }

  function DigitValue(c: char): nat
    requires IsDigit(c)
  {
    c as int - '0' as int
  }

  /** The decimal rendering of a non-negative `Int`. */
  function NatToString(n: nat): (s: string)
    ensures |s| >= 1 && AllDigits(s)
    ensures |s| > 1 ==> s[0] != '0'
    ensures n < 10 <==> |s| == 1
  {
    if n < 10 then [DigitChar(n)] else NatToString(n / 10) + [DigitChar(n % 10)]
  }

  /** The value of a string of decimal digits. */
  function ParseDigits(s: string): nat
    requires AllDigits(s)
  {
    if s == [] then 0 else 10 * ParseDigits(s[..|s| - 1]) + DigitValue(s[|s| - 1])
  }

  lemma {:induction false} ParseNatToString(n: nat)
    ensures ParseDigits(NatToString(n)) == n
  {
    var s := NatToString(n);
    if n < 10 {
      assert s[..0] == [];
    } else {
      ParseNatToString(n / 10);
      assert s[..|s| - 1] == NatToString(n / 10);
    }
  }

  /** Swift's `"\(i)"` for an `Int`. */
  function IntToString(i: int): string {
    if i < 0 then "-" + NatToString(-i) else NatToString(i)
  }

  /** Reads an optionally signed decimal number; None for anything else. */
  function ReadInt(s: string): Option<int> {
    if |s| >= 2 && s[0] == '-' && AllDigits(s[1..]) then
      var magnitude: int := ParseDigits(s[1..]);
      Some(-magnitude)
    else if |s| >= 1 && AllDigits(s) then Some(ParseDigits(s))
    else None
  }

  /** Every `Int`, negative ones included, is read back from its rendering. */
  lemma IntToStringReadsBack(i: int)
    ensures ReadInt(IntToString(i)) == Some(i)
  {
    if i < 0 {
      var t := NatToString(-i);
      var s := "-" + t;
      assert s[0] == '-' && s[1..] == t;
      ParseNatToString(-i);
      assert ReadInt(s) == Some(0 - ParseDigits(t));
    } else {
      var s := NatToString(i);
      assert IsDigit(s[0]);
      ParseNatToString(i);
    }
  }

  /** `String(format: "%02d", i)`: zero-padded on the left to at least two characters. */
  function ZeroPad2(i: int): (s: string)
    ensures |s| >= 2
    ensures 0 <= i < 100 ==> |s| == 2 && AllDigits(s) && ParseDigits(s) == i
  {
    if 0 <= i < 10 then
      var s := "0" + NatToString(i);
      assert s[..|s| - 1] == "0" && ParseDigits("0") == 10 * ParseDigits("") + 0;
      s
    else
      ParseTwoDigits(i);
      IntToString(i)
  }

  lemma ParseTwoDigits(i: int)
    ensures 10 <= i < 100 ==> |NatToString(i)| == 2 && ParseDigits(NatToString(i)) == i
  {
    if 10 <= i < 100 {
      ParseNatToString(i);
    }
  }

  /** `formatTime`: minutes, a colon, then the seconds zero-padded to two digits (Swift's truncating `/` and `%`). */
  function FormatTime(seconds: int): string {
    IntToString(Quot(seconds, 60)) + ":" + ZeroPad2(Rem(seconds, 60))
  }

  /** `formatDuration`: "m min" below an hour, otherwise "hh" or "hh rm". */
  function FormatDuration(minutes: int): string {
    if minutes < 60 then IntToString(minutes) + " min"
    else
      // for minutes >= 60, Dafny's / and % agree with Swift's
      var hours := minutes / 60;
      var remaining := minutes % 60;
      if remaining == 0 then NatToString(hours) + "h"
      else NatToString(hours) + "h " + NatToString(remaining) + "m"
  }

  /** Reads a rendering "M:SS" back into a number of seconds; None for anything else. */
  function ReadTime(s: string): Option<nat> {
    match FirstIndexWhere(s, IsColon)
    case None => None
    case Some(i) => ReadClock(s[..i], s[i + 1..])
  }

  /** Reads the minutes before the colon and the two digits of seconds after it. */
  function ReadClock(minutes: string, secs: string): Option<nat> {
    if |minutes| >= 1 && AllDigits(minutes) && |secs| == 2 && AllDigits(secs) && ParseDigits(secs) < 60
    then Some(60 * ParseDigits(minutes) + ParseDigits(secs))
    else None
  }

  predicate IsColon(c: char) {
    c == ':'
  }

  predicate IsHourMark(c: char) {
    c == 'h'
  }

  /** In a string made of digits, then c, then anything, the first character p accepts is that c. */
  lemma FirstAfterDigits(digits: string, c: char, rest: string, p: char -> bool)
    requires AllDigits(digits) && p(c)
    requires forall d :: IsDigit(d) ==> !p(d)
    ensures FirstIndexWhere(digits + [c] + rest, p) == Some(|digits|)
  {
    var s := digits + [c] + rest;
    assert s[|digits|] == c;
  }

  /** A non-negative number of seconds renders as the whole minutes, a colon and exactly two digits of seconds. */
  lemma FormatTimeShape(seconds: nat)
    ensures FormatTime(seconds) == NatToString(seconds / 60) + ":" + ZeroPad2(seconds % 60)
    ensures |ZeroPad2(seconds % 60)| == 2 && AllDigits(ZeroPad2(seconds % 60))
  {
    assert Quot(seconds, 60) == seconds / 60 && Rem(seconds, 60) == seconds % 60;
  }

  /** A non-negative number of seconds can be read back from its `formatTime` rendering. */
  lemma FormatTimeReadsBack(seconds: nat)
    ensures ReadTime(FormatTime(seconds)) == Some(seconds)
  {
    FormatTimeShape(seconds);
    var m, r := seconds / 60, seconds % 60;
    ParseNatToString(m);
    ReadAtColon(NatToString(m), ZeroPad2(r));
    assert 60 * m + r == seconds;
  }

  /** A rendering "digits:rest" is read by `ReadClock` on the two sides of its colon. */
  lemma ReadAtColon(ms: string, rs: string)
    requires AllDigits(ms)
    ensures ReadTime(ms + [':'] + rs) == ReadClock(ms, rs)
  {
    var s := ms + [':'] + rs;
    FirstAfterDigits(ms, ':', rs, IsColon);
    assert s[..|ms|] == ms && s[|ms| + 1..] == rs;
  }

  /** Reads a rendering "m min", "hh" or "hh rm" back into minutes; None for anything else. */
  function ReadDuration(s: string): Option<nat> {
    if MinutesForm(s) then Some(ParseDigits(s[..|s| - 4]))
    else match FirstIndexWhere(s, IsHourMark)
      case None => None
      case Some(i) => ReadHours(s[..i], s[i + 1..])
  }

  predicate MinutesForm(s: string) {
    |s| > 4 && s[|s| - 4..] == " min" && AllDigits(s[..|s| - 4])
  }

  /** Reads the hours before the 'h' and what follows it: nothing, or " rm". */
  function ReadHours(hours: string, rest: string): Option<nat> {
    if |hours| == 0 || !AllDigits(hours) then None
    else if rest == [] then Some(60 * ParseDigits(hours))
    else if |rest| >= 3 && rest[0] == ' ' && rest[|rest| - 1] == 'm' && AllDigits(rest[1..|rest| - 1])
    then Some(60 * ParseDigits(hours) + ParseDigits(rest[1..|rest| - 1]))
    else None
  }

  /** A non-negative number of minutes can be read back from its `formatDuration` rendering. */
  lemma FormatDurationReadsBack(minutes: nat)
    ensures ReadDuration(FormatDuration(minutes)) == Some(minutes)
  {
    if minutes < 60 {
      ReadsBackMinutes(minutes);
    } else if minutes % 60 == 0 {
      ReadsBackWholeHours(minutes);
    } else {
      ReadsBackHoursAndMinutes(minutes);
    }
  }

  /** Below an hour the rendering is "m min". */
  lemma ReadsBackMinutes(minutes: nat)
    requires minutes < 60
    ensures FormatDuration(minutes) == NatToString(minutes) + " min"
    ensures ReadDuration(FormatDuration(minutes)) == Some(minutes)
  {
    var s := FormatDuration(minutes);
    var ds := NatToString(minutes);
    assert s == ds + " min";
    assert s[|s| - 4..] == " min" && s[..|s| - 4] == ds;
    assert MinutesForm(s);
    ParseNatToString(minutes);
  }

  /** A positive number never renders as "0". */
  lemma PositiveRendering(n: nat)
    requires n >= 1
    ensures NatToString(n) != "0"
  {
    if n < 10 {
      assert NatToString(n)[0] == DigitChar(n) != '0';
    }
  }

  /** A whole number of hours renders as "Nh", with N at least one. */
  lemma ReadsBackWholeHours(minutes: nat)
    requires minutes >= 60 && minutes % 60 == 0
    ensures FormatDuration(minutes) == NatToString(minutes / 60) + "h"
    ensures minutes / 60 >= 1 && NatToString(minutes / 60) != "0"
    ensures ReadDuration(FormatDuration(minutes)) == Some(minutes)
  {
    var hs := NatToString(minutes / 60);
    PositiveRendering(minutes / 60);
    ParseNatToString(minutes / 60);
    assert FormatDuration(minutes) == hs + ['h'] + [];
    ReadWholeHours(hs);
  }

  lemma ReadWholeHours(hs: string)
    requires |hs| >= 1 && AllDigits(hs)
    ensures ReadDuration(hs + ['h'] + []) == Some(60 * ParseDigits(hs))
  {
    var s := hs + ['h'] + [];
    assert s[|s| - 1] == 'h';
    assert |s| > 4 ==> s[|s| - 4..][3] == 'h' != " min"[3];
    assert !MinutesForm(s);
    FirstAfterDigits(hs, 'h', [], IsHourMark);
    assert s[..|hs|] == hs && s[|hs| + 1..] == [];
  }

  /** Otherwise the rendering is "Nh Mm", with N at least one and M between 1 and 59. */
  lemma ReadsBackHoursAndMinutes(minutes: nat)
    requires minutes >= 60 && minutes % 60 != 0
    ensures FormatDuration(minutes) == NatToString(minutes / 60) + "h " + NatToString(minutes % 60) + "m"
    ensures minutes / 60 >= 1 && 1 <= minutes % 60 < 60
    ensures NatToString(minutes / 60) != "0" && NatToString(minutes % 60) != "0"
    ensures ReadDuration(FormatDuration(minutes)) == Some(minutes)
  {
    HoursAndMinutesShape(minutes);
    PositiveRendering(minutes / 60);
    PositiveRendering(minutes % 60);
    HoursAndMinutesRead(minutes / 60, minutes % 60);
    assert 60 * (minutes / 60) + minutes % 60 == minutes;
  }

  lemma HoursAndMinutesRead(h: nat, r: nat)
    ensures ReadDuration(NatToString(h) + ['h'] + ([' '] + NatToString(r) + ['m'])) == Some(60 * h + r)
  {
    ParseNatToString(h);
    ParseNatToString(r);
    ReadHoursAndMinutes(NatToString(h), NatToString(r), h, r);
  }

  lemma HoursAndMinutesShape(minutes: nat)
    requires minutes >= 60 && minutes % 60 != 0
    ensures minutes / 60 >= 1 && 1 <= minutes % 60 < 60
    ensures FormatDuration(minutes) == NatToString(minutes / 60) + "h " + NatToString(minutes % 60) + "m"
    ensures FormatDuration(minutes) == NatToString(minutes / 60) + ['h'] + ([' '] + NatToString(minutes % 60) + ['m'])
  {
  }

  lemma ReadHoursAndMinutes(hs: string, rs: string, h: nat, r: nat)
    requires |hs| >= 1 && AllDigits(hs) && |rs| >= 1 && AllDigits(rs)
    requires ParseDigits(hs) == h && ParseDigits(rs) == r
    ensures ReadDuration(hs + ['h'] + ([' '] + rs + ['m'])) == Some(60 * h + r)
  {
    var rest := [' '] + rs + ['m'];
    ReadHoursOf(hs, rs);
    ReadAtHourMark(hs, rest);
  }

  /** Past the minutes form, a rendering "digits h rest" is read by `ReadHours` on its two sides. */
  lemma ReadAtHourMark(hs: string, rest: string)
    requires AllDigits(hs) && |rest| >= 1 && rest[|rest| - 1] == 'm'
    ensures ReadDuration(hs + ['h'] + rest) == ReadHours(hs, rest)
  {
    var s := hs + ['h'] + rest;
    NotMinutesForm(s);
    FirstAfterDigits(hs, 'h', rest, IsHourMark);
    assert s[..|hs|] == hs;
    assert s[|hs| + 1..] == rest;
  }

  lemma NotMinutesForm(s: string)
    requires |s| >= 1 && s[|s| - 1] == 'm'
    ensures !MinutesForm(s)
  {
    assert |s| > 4 ==> s[|s| - 4..][3] == 'm' != " min"[3];
  }

  lemma ReadHoursOf(hours: string, rs: string)
    requires |hours| >= 1 && AllDigits(hours) && |rs| >= 1 && AllDigits(rs)
    ensures ReadHours(hours, [' '] + rs + ['m']) == Some(60 * ParseDigits(hours) + ParseDigits(rs))
  {
    var rest := [' '] + rs + ['m'];
    assert rest[1..|rest| - 1] == rs;
  }
}
