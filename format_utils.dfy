/** `formatDate` (ux-react/src/utils/formatUtils.jsx), from the local calendar fields
    of the parsed date: "<Mes> <día>, <año> <HH>:<MM>". */
module FormatUtils {
  import opened Common
  import opened Text

  const MonthNames: seq<string> := ["Enero", "Febrero", "Marzo", "Abril", "Mayo", "Junio", "Julio",
                                    "Agosto", "Septiembre", "Octubre", "Noviembre", "Diciembre"]

  /** `monthNames[monthIndex]`; outside 0..11 the lookup is `undefined`, which the
      template literal renders as "undefined". */
  function MonthName(monthIndex: int): string {
    if 0 <= monthIndex < |MonthNames| then MonthNames[monthIndex] else "undefined"
  }

  /** `s.padStart(width, fill)` with a one-character fill. */
  function PadStart(s: string, width: nat, fill: char): (r: string)
    ensures |r| == if |s| >= width then |s| else width
    ensures r[|r| - |s|..] == s
    ensures forall i :: 0 <= i < |r| - |s| ==> r[i] == fill
  {
    if |s| >= width then s else seq(width - |s|, _ => fill) + s
  }

  /** `n.toString().padStart(2, "0")`. */
  function TwoDigits(n: int): string {
    PadStart(IntToDecimal(n), 2, '0')
  }

  /** `${monthNames[monthIndex]} ${day}, ${year} ${hour}:${minute}` with the padded hour and minute. */
  function FormatDate(day: int, monthIndex: int, year: int, hour: int, minute: int): string {
    Stamp(DatePart(day, monthIndex, year), TwoDigits(hour), TwoDigits(minute))
  }

  /** The unpadded "<Mes> <día>, <año>" part. */
  function DatePart(day: int, monthIndex: int, year: int): string {
    MonthName(monthIndex) + " " + IntToDecimal(day) + ", " + IntToDecimal(year)
  }

  /** "<date> <hh>:<mm>". */
  function Stamp(date: string, hh: string, mm: string): string {
    date + " " + hh + ":" + mm
  }

  /** Each month index names a different month, so the name determines the index.
      The length and the first and third letters already tell the names apart. */
  lemma MonthNamesDistinct(i: int, j: int)
    requires 0 <= i < 12 && 0 <= j < 12 && i != j
    ensures MonthName(i) != MonthName(j)
  {
    var keys := [(5, 'E', 'e'), (7, 'F', 'b'), (5, 'M', 'r'), (5, 'A', 'r'), (4, 'M', 'y'), (5, 'J', 'n'),
                 (5, 'J', 'l'), (6, 'A', 'o'), (10, 'S', 'p'), (7, 'O', 't'), (9, 'N', 'v'), (9, 'D', 'c')];
    forall k | 0 <= k < 12
      ensures (|MonthNames[k]|, MonthNames[k][0], MonthNames[k][2]) == keys[k]
    {
    }
    assert keys[i] != keys[j];
  }

  lemma TwoCharValue(a: char, b: char)
    requires IsDigit(a) && IsDigit(b)
    ensures AllDigits([a, b]) && DecimalValue([a, b]) == 10 * DigitValue(a) + DigitValue(b)
  {
    var ab := [a, b];
    assert ab[..1] == [a];
    assert [a][..0] == [];
    assert DecimalValue([a]) == DigitValue(a);
    assert DecimalValue(ab) == 10 * DecimalValue(ab[..1]) + DigitValue(ab[1]);
  }

  /** `t` is two decimal digits whose value is `n`. */
  predicate ClockDigits(t: string, n: int) {
    |t| == 2 && AllDigits(t) && DecimalValue(t) == n
  }

  /** An hour or a minute (0..99) becomes exactly two digits whose value is the number. */
  lemma TwoDigitsOfClockField(n: int)
    requires 0 <= n < 100
    ensures ClockDigits(TwoDigits(n), n)
  {
    var t := TwoDigits(n);
    var hi := n / 10;
    var lo := n % 10;
    if n < 10 {
      assert IntToDecimal(n) == [DigitChar(lo)];
      assert t == [DigitChar(0), DigitChar(lo)];
    } else {
      assert NatToDecimal(hi) == [DigitChar(hi)];
      assert IntToDecimal(n) == [DigitChar(hi), DigitChar(lo)];
      assert t == [DigitChar(hi), DigitChar(lo)];
    }
    assert t == [DigitChar(hi), DigitChar(lo)];
    TwoCharValue(DigitChar(hi), DigitChar(lo));
  }

  /** Reads the hour and the minute back from a text ending in " HH:MM". */
  function ReadClock(r: string): Option<(int, int)> {
    if |r| >= 6 && r[|r| - 6] == ' ' && r[|r| - 3] == ':' &&
       AllDigits(r[|r| - 5..|r| - 3]) && AllDigits(r[|r| - 2..])
    then Some((DecimalValue(r[|r| - 5..|r| - 3]) as int, DecimalValue(r[|r| - 2..]) as int))
    else None
  }

  /** "<date> <hh>:<mm>" starts with the date and reads back the two clock fields. */
  lemma StampShape(date: string, hh: string, mm: string, hour: int, minute: int)
    requires ClockDigits(hh, hour) && ClockDigits(mm, minute)
    ensures date <= Stamp(date, hh, mm)
    ensures ReadClock(Stamp(date, hh, mm)) == Some((hour, minute))
  {
    var r := Stamp(date, hh, mm);
    assert r[..|date|] == date;
    assert r[|r| - 6] == ' ' && r[|r| - 3] == ':';
    assert r[|r| - 5..|r| - 3] == hh;
    assert r[|r| - 2..] == mm;
  }

  /** The date part starts with the month's name and a space. */
  lemma DatePartStartsWithMonth(day: int, monthIndex: int, year: int)
    ensures MonthName(monthIndex) + " " <= DatePart(day, monthIndex, year)
  {
    var lead := MonthName(monthIndex) + " ";
    var rest := IntToDecimal(day) + ", " + IntToDecimal(year);
    PrefixOfConcat(lead, rest);
    assert DatePart(day, monthIndex, year) == lead + rest;
  }

  lemma PrefixOfConcat(a: string, b: string)
    ensures a <= a + b
  {
    assert (a + b)[..|a|] == a;
  }

  lemma PrefixTransitive(a: string, b: string, c: string)
    requires a <= b && b <= c
    ensures a <= c
  {
    assert c[..|a|] == b[..|a|];
  }

  /** The formatted date starts with the month's name and a space, and the hour and
      the minute read back from its " HH:MM" tail. */
  lemma FormatDateLayout(day: int, monthIndex: int, year: int, hour: int, minute: int)
    requires 0 <= hour < 24 && 0 <= minute < 60
    ensures MonthName(monthIndex) + " " <= FormatDate(day, monthIndex, year, hour, minute)
    ensures ReadClock(FormatDate(day, monthIndex, year, hour, minute)) == Some((hour, minute))
  {
    var date := DatePart(day, monthIndex, year);
    var hh := TwoDigits(hour);
    var mm := TwoDigits(minute);
    TwoDigitsOfClockField(hour);
    TwoDigitsOfClockField(minute);
    StampShape(date, hh, mm, hour, minute);
    DatePartStartsWithMonth(day, monthIndex, year);
    PrefixTransitive(MonthName(monthIndex) + " ", date, Stamp(date, hh, mm));
  }
}
