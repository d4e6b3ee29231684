/**
 * The received-date parser (`parseDateString`) and the display formatter
 * (`formatDate`) of the bookmarklet.
 *
 * The parser runs the regular expression
 *   /(\w+)\s+(\d+),\s+(\d+)\s+(\d+):(\d+)\s+(am|pm)/i
 * as a search (the first start position at which it matches). Every
 * quantified class in it is followed by a character that the class cannot
 * contain (`\w` by `\s`, `\s` by a digit or a letter, `\d` by `,`, `:` or
 * `\s`), so backtracking never helps: at a given start position each `+`
 * takes the longest run it can, and the match there is unique. `MatchPrefix`
 * is that deterministic match, `FirstMatch` the search.
 */
module Dates {

  import opened Wrappers
  import opened Strings

  // ---------------------------------------------------------------------
  // The regular expression
  // ---------------------------------------------------------------------

  /** `(am|pm)` with the `i` flag, then `toLowerCase`. */
  function Meridiem(t: string): (r: Option<string>)
    ensures r.Some? ==> r.value == "am" || r.value == "pm"
  {
    if |t| < 2 then None
    else
      var ap := Lower(t[..2]);
      if ap == "am" || ap == "pm" then Some(ap) else None
  }

  /** The six capture groups; `meridiem` is group 6 after `toLowerCase`. */
  datatype Captures = Captures(monthName: string, day: string, year: string,
                               hour: string, minute: string, meridiem: string)

  predicate WellFormed(c: Captures)
  {
    && c.monthName != [] && c.day != [] && c.year != [] && c.hour != [] && c.minute != []
    && AllDigits(c.day) && AllDigits(c.year) && AllDigits(c.hour) && AllDigits(c.minute)
    && (c.meridiem == "am" || c.meridiem == "pm")
  }

  /** The date half of the pattern, `(\w+)\s+(\d+),\s+(\d+)`: the month
      name, the day, the year and what follows. */
  datatype DayPart = DayPart(name: string, day: string, year: string, rest: string)

  /** The time half, `\s+(\d+):(\d+)\s+(am|pm)`. */
  datatype TimePart = TimePart(hour: string, minute: string, meridiem: string)

  function MatchDay(t: string): (r: Option<DayPart>)
    ensures r.Some? ==> r.value.name != [] && r.value.day != [] && r.value.year != []
    ensures r.Some? ==> AllDigits(r.value.day) && AllDigits(r.value.year)
  {
    var name :- Take(t, Word);
    var gap1 :- Take(name.rest, Space);
    var day :- Take(gap1.rest, Digit);
    var afterComma :- Literal(day.rest, ',');
    var gap2 :- Take(afterComma, Space);
    var year :- Take(gap2.rest, Digit);
    Some(DayPart(name.token, day.token, year.token, year.rest))
  }

  function MatchTime(t: string): (r: Option<TimePart>)
    ensures r.Some? ==> r.value.hour != [] && r.value.minute != []
    ensures r.Some? ==> AllDigits(r.value.hour) && AllDigits(r.value.minute)
    ensures r.Some? ==> r.value.meridiem == "am" || r.value.meridiem == "pm"
  {
    var gap3 :- Take(t, Space);
    var hour :- Take(gap3.rest, Digit);
    var afterColon :- Literal(hour.rest, ':');
    var minute :- Take(afterColon, Digit);
    var gap4 :- Take(minute.rest, Space);
    var meridiem :- Meridiem(gap4.rest);
    Some(TimePart(hour.token, minute.token, meridiem))
  }

  /** The regular expression matched at the very start of `t`. */
  function MatchPrefix(t: string): (r: Option<Captures>)
    ensures r.Some? ==> WellFormed(r.value)
  {
    var d :- MatchDay(t);
    var h :- MatchTime(d.rest);
    Some(Captures(d.name, d.day, d.year, h.hour, h.minute, h.meridiem))
  }

  /** `String.prototype.match` with a non-global pattern: the match at the
      first start position, from `from` up to and including `|s|`, where
      the pattern matches. */
  function FirstMatch(s: string, from: nat): (r: Option<Captures>)
    requires from <= |s| + 1
    decreases |s| + 1 - from
    ensures r.None? <==> forall i :: from <= i <= |s| ==> MatchPrefix(s[i..]).None?
    ensures r.Some? ==> exists i :: from <= i <= |s| && MatchPrefix(s[i..]) == r &&
                                    forall j :: from <= j < i ==> MatchPrefix(s[j..]).None?
    ensures r.Some? ==> WellFormed(r.value)
  {
    if from > |s| then None
    else
      match MatchPrefix(s[from..])
      case Some(c) => Some(c)
      case None => FirstMatch(s, from + 1)
  }

  // ---------------------------------------------------------------------
  // Month table and hour conversion
  // ---------------------------------------------------------------------

  const MonthNames: seq<string> :=
    ["Jan", "Feb", "Mar", "Apr", "May", "Jun", "Jul", "Aug", "Sep", "Oct", "Nov", "Dec"]

  function MonthIndexFrom(name: string, k: nat): (r: Option<nat>)
    requires k <= |MonthNames|
    decreases |MonthNames| - k
    ensures r.Some? ==> k <= r.value < |MonthNames| && MonthNames[r.value] == name
    ensures r.None? ==> forall j :: k <= j < |MonthNames| ==> MonthNames[j] != name
  {
    if k == |MonthNames| then None
    else if MonthNames[k] == name then Some(k)
    else MonthIndexFrom(name, k + 1)
  }

  /** `months[name]`: the 1-based month of an exact, case-sensitive
      three-letter name; `undefined` (None) for any other name. */
  function MonthNumber(name: string): (m: Option<nat>)
    ensures m.Some? <==> name in MonthNames
    ensures m.Some? ==> 1 <= m.value <= 12 && MonthNames[m.value - 1] == name
  {
    match MonthIndexFrom(name, 0)
    case Some(k) => Some(k + 1)
    case None => None
  }

  /** The 12-hour to 24-hour conversion followed by the fold that takes
      12 off any hour above 12. */
  function ConvertHour(hour: nat, meridiem: string): nat
  {
    var h := if meridiem == "pm" && hour != 12 then hour + 12
             else if meridiem == "am" && hour == 12 then 0
             else hour;
    if h > 12 then h - 12 else h
  }

  /** For a clock hour 1..12 the result is the hour itself, except that
      12 am is 0: the afternoon is folded back onto the morning, and the
      result always lies in 0..12. */
  lemma ConvertClockHour(hour: nat, meridiem: string)
    requires 1 <= hour <= 12
    requires meridiem == "am" || meridiem == "pm"
    ensures ConvertHour(hour, meridiem) == if hour == 12 && meridiem == "am" then 0 else hour
    ensures ConvertHour(hour, meridiem) <= 12
  {
  }

  // ---------------------------------------------------------------------
  // parseDateString
  // ---------------------------------------------------------------------

  /** The received date. `month` is None where the name is not in the
      table, as `months[name]` is then `undefined`. */
  datatype DateParts = DateParts(year: nat, month: Option<nat>, day: nat, hour: nat, minute: nat)

  function PartsOf(c: Captures): DateParts
    requires WellFormed(c)
  {
    DateParts(DecimalValue(c.year), MonthNumber(c.monthName), DecimalValue(c.day),
              ConvertHour(DecimalValue(c.hour), c.meridiem), DecimalValue(c.minute))
  }

  /** `parseDateString`: null exactly when the pattern matches nowhere in
      `s`; otherwise the parts of the leftmost match. */
  function ParseDateString(s: string): (r: Option<DateParts>)
    ensures r.None? <==> forall i :: 0 <= i <= |s| ==> MatchPrefix(s[i..]).None?
    ensures r.Some? ==> exists i :: 0 <= i <= |s| && MatchPrefix(s[i..]).Some? &&
                                    r.value == PartsOf(MatchPrefix(s[i..]).value) &&
                                    forall j :: 0 <= j < i ==> MatchPrefix(s[j..]).None?
  {
    match FirstMatch(s, 0)
    case None => None
    case Some(c) => Some(PartsOf(c))
  }

  /** The date as the page shows it: `<name> <day>, <year> <hour>:<minute>
      <am|pm>`, followed by anything (a time-zone name, say). */
  function DateText(name: string, day: string, year: string, hour: string,
                    minute: string, meridiem: string, rest: string): string
  {
    name + (" " + (day + ("," + (" " + (year + (" " + (hour + (":" + (minute + (" " + (meridiem + rest)))))))))))
  }

  predicate WordChars(s: string)
  {
    forall p :: 0 <= p < |s| ==> IsWordChar(s[p])
  }

  lemma MatchDayText(name: string, day: string, year: string, rest: string)
    requires name != [] && WordChars(name)
    requires day != [] && year != [] && AllDigits(day) && AllDigits(year)
    requires rest == [] || !IsDigit(rest[0])
    ensures MatchDay(name + (" " + (day + ("," + (" " + (year + rest)))))) ==
            Some(DayPart(name, day, year, rest))
  {
    var t2 := day + ("," + (" " + (year + rest)));
    TakeOfConcat(name, " " + t2, Word);
    TakeOfConcat(" ", t2, Space);
    TakeOfConcat(day, "," + (" " + (year + rest)), Digit);
    TakeOfConcat(" ", year + rest, Space);
    TakeOfConcat(year, rest, Digit);
  }

  lemma MeridiemText(meridiem: string, rest: string)
    requires meridiem == "am" || meridiem == "pm"
    ensures Meridiem(meridiem + rest) == Some(meridiem)
  {
    assert (meridiem + rest)[..2] == meridiem;
    assert Lower(meridiem) == meridiem;
  }

  lemma MatchTimeText(hour: string, minute: string, meridiem: string, rest: string)
    requires hour != [] && minute != [] && AllDigits(hour) && AllDigits(minute)
    requires meridiem == "am" || meridiem == "pm"
    ensures MatchTime(" " + (hour + (":" + (minute + (" " + (meridiem + rest)))))) ==
            Some(TimePart(hour, minute, meridiem))
  {
    var t11 := meridiem + rest;
    TakeOfConcat(" ", hour + (":" + (minute + (" " + t11))), Space);
    TakeOfConcat(hour, ":" + (minute + (" " + t11)), Digit);
    TakeOfConcat(minute, " " + t11, Digit);
    TakeOfConcat(" ", t11, Space);
    MeridiemText(meridiem, rest);
  }

  lemma MatchDateText(name: string, day: string, year: string, hour: string,
                      minute: string, meridiem: string, rest: string)
    requires name != [] && WordChars(name)
    requires day != [] && year != [] && hour != [] && minute != []
    requires AllDigits(day) && AllDigits(year) && AllDigits(hour) && AllDigits(minute)
    requires meridiem == "am" || meridiem == "pm"
    ensures MatchPrefix(DateText(name, day, year, hour, minute, meridiem, rest)) ==
            Some(Captures(name, day, year, hour, minute, meridiem))
  {
    var time := " " + (hour + (":" + (minute + (" " + (meridiem + rest)))));
    MatchDayText(name, day, year, time);
    MatchTimeText(hour, minute, meridiem, rest);
  }

  /** Reading back a date written in the page's format: each number is the
      decimal value of its digits, the month comes from the table and the
      hour goes through the 12-hour conversion and the fold. */
  lemma ParseDateText(name: string, day: string, year: string, hour: string,
                      minute: string, meridiem: string, rest: string)
    requires name != [] && WordChars(name)
    requires day != [] && year != [] && hour != [] && minute != []
    requires AllDigits(day) && AllDigits(year) && AllDigits(hour) && AllDigits(minute)
    requires meridiem == "am" || meridiem == "pm"
    ensures ParseDateString(DateText(name, day, year, hour, minute, meridiem, rest)) ==
            Some(DateParts(DecimalValue(year), MonthNumber(name), DecimalValue(day),
                           ConvertHour(DecimalValue(hour), meridiem), DecimalValue(minute)))
  {
    var t := DateText(name, day, year, hour, minute, meridiem, rest);
    MatchDateText(name, day, year, hour, minute, meridiem, rest);
    assert t[0..] == t;
  }

  /** Helper for the three parse examples below: the decimal values of
      their numerals. */
  lemma DecimalExamples()
    ensures DecimalValue("2026") == 2026 && DecimalValue("05") == 5
    ensures DecimalValue("11") == 11 && DecimalValue("04") == 4 && DecimalValue("1") == 1
    ensures DecimalValue("02") == 2 && DecimalValue("12") == 12 && DecimalValue("30") == 30
  {
    assert "2026"[..3] == "202" && "202"[..2] == "20" && "20"[..1] == "2";
    assert "05"[..1] == "0" && "04"[..1] == "0" && "02"[..1] == "0";
    assert "11"[..1] == "1" && "12"[..1] == "1" && "30"[..1] == "3";
  }

  /** "Feb 05, 2026 11:04 am PST": the morning hour is kept. */
  lemma ParseMorningExample()
    ensures ParseDateString(DateText("Feb", "05", "2026", "11", "04", "am", " PST")) ==
            Some(DateParts(2026, Some(2), 5, 11, 4))
  {
    assert MonthNames[1] == "Feb";
    DecimalExamples();
    ParseDateText("Feb", "05", "2026", "11", "04", "am", " PST");
  }

  /** "Feb 05, 2026 1:02 pm" comes back as hour 1: the fold undoes the
      12-hour conversion. */
  lemma ParseAfternoonExample()
    ensures ParseDateString(DateText("Feb", "05", "2026", "1", "02", "pm", "")) ==
            Some(DateParts(2026, Some(2), 5, 1, 2))
  {
    assert MonthNames[1] == "Feb";
    DecimalExamples();
    ParseDateText("Feb", "05", "2026", "1", "02", "pm", "");
  }

  /** "Feb 05, 2026 12:30 am" comes back as hour 0. */
  lemma ParseMidnightExample()
    ensures ParseDateString(DateText("Feb", "05", "2026", "12", "30", "am", "")) ==
            Some(DateParts(2026, Some(2), 5, 0, 30))
  {
    assert MonthNames[1] == "Feb";
    DecimalExamples();
    ParseDateText("Feb", "05", "2026", "12", "30", "am", "");
  }

  // ---------------------------------------------------------------------
  // formatDate
  // ---------------------------------------------------------------------

  /** A number in a template literal; `undefined` where the month lookup
      found nothing. */
  function ShowMonth(m: Option<nat>): string
  {
    match m
    case Some(n) => NatToString(n)
    case None => "undefined"
  }

  /** Two pieces of a template literal around a one-character separator. */
  function Joined(x: string, c: char, y: string): string
  {
    x + [c] + y
  }

  /** `formatDate`: `month/day/year hour:minute`, the minute padded to two
      digits with `0`. */
  function FormatDate(d: DateParts): string
  {
    Joined(ShowMonth(d.month), '/',
      Joined(NatToString(d.day), '/',
        Joined(NatToString(d.year), ' ',
          Joined(NatToString(d.hour), ':', PadStart(NatToString(d.minute), 2, '0')))))
  }

  lemma SplitAtSeparator(x1: string, y1: string, x2: string, y2: string, c: char)
    requires c !in x1 && c !in x2
    requires Joined(x1, c, y1) == Joined(x2, c, y2)
    ensures x1 == x2 && y1 == y2
  {
    var s := Joined(x1, c, y1);
    assert s[|x1|] == c && forall k :: 0 <= k < |x1| ==> s[k] == x1[k];
    assert s[|x2|] == c && forall k :: 0 <= k < |x2| ==> s[k] == x2[k];
    assert |x1| == |x2|;
    assert x1 == s[..|x1|];
    assert x2 == s[..|x2|];
    assert y1 == s[|x1| + 1..];
    assert y2 == s[|x2| + 1..];
  }

  lemma PaddedMinuteInjective(m1: nat, m2: nat)
    requires PadStart(NatToString(m1), 2, '0') == PadStart(NatToString(m2), 2, '0')
    ensures m1 == m2
  {
    var s1, s2 := NatToString(m1), NatToString(m2);
    var p := PadStart(s1, 2, '0');
    assert |s1| == 1 ==> p[0] == '0' && p[1..] == s1;
    assert |s1| > 1 ==> p == s1 && p[0] != '0';
    assert |s2| == 1 ==> p[0] == '0' && p[1..] == s2;
    assert |s2| > 1 ==> p == s2 && p[0] != '0';
    assert s1 == s2;
    NatToStringInjective(m1, m2);
  }

  lemma ShowMonthInjective(m1: Option<nat>, m2: Option<nat>)
    requires ShowMonth(m1) == ShowMonth(m2)
    ensures m1 == m2 && '/' !in ShowMonth(m1)
  {
    assert m1.Some? ==> IsDigit(ShowMonth(m1)[0]);
    assert m2.Some? ==> IsDigit(ShowMonth(m2)[0]);
    assert m1.None? ==> ShowMonth(m1)[0] == 'u';
    assert m2.None? ==> ShowMonth(m2)[0] == 'u';
    assert m1.Some? == m2.Some?;
    if m1.Some? {
      NatToStringInjective(m1.value, m2.value);
    }
  }

  /** Two different dates are never displayed alike. */
  lemma {:induction false} FormatDateInjective(d1: DateParts, d2: DateParts)
    requires FormatDate(d1) == FormatDate(d2)
    ensures d1 == d2
  {
    var mi1, mi2 := PadStart(NatToString(d1.minute), 2, '0'), PadStart(NatToString(d2.minute), 2, '0');
    var u1, u2 := Joined(NatToString(d1.hour), ':', mi1), Joined(NatToString(d2.hour), ':', mi2);
    var q1, q2 := Joined(NatToString(d1.year), ' ', u1), Joined(NatToString(d2.year), ' ', u2);
    var r1, r2 := Joined(NatToString(d1.day), '/', q1), Joined(NatToString(d2.day), '/', q2);
    assert '/' !in ShowMonth(d1.month) && '/' !in ShowMonth(d2.month);
    SplitAtSeparator(ShowMonth(d1.month), r1, ShowMonth(d2.month), r2, '/');
    ShowMonthInjective(d1.month, d2.month);
    SplitAtSeparator(NatToString(d1.day), q1, NatToString(d2.day), q2, '/');
    NatToStringInjective(d1.day, d2.day);
    SplitAtSeparator(NatToString(d1.year), u1, NatToString(d2.year), u2, ' ');
    NatToStringInjective(d1.year, d2.year);
    SplitAtSeparator(NatToString(d1.hour), mi1, NatToString(d2.hour), mi2, ':');
    NatToStringInjective(d1.hour, d2.hour);
    PaddedMinuteInjective(d1.minute, d2.minute);
  }

}
