/** The display helpers used when a listing is announced: description truncation
    and the human-readable start date (`sendNotification` and `formatStartDate`
    in main.go). Go strings are byte strings; here a `string` holds one `char`
    per byte, so lengths and slices count bytes as `len` and `s[:n]` do in Go. */
module Format {
  import opened Outcomes

  /** Descriptions longer than this many bytes are cut. */
  const MaxDescriptionLength := 500

  /** What a cut description ends with. */
  const Ellipsis := "..."

  /** The placeholder for a missing or unparseable start date. */
  const NotSpecified := "Not specified"

  /** A description as shown: unchanged up to the limit, otherwise its first
      500 bytes followed by the ellipsis. */
  function TruncateDescription(d: string): (r: string)
    ensures |d| <= MaxDescriptionLength ==> r == d
    ensures |d| > MaxDescriptionLength ==>
      |r| == MaxDescriptionLength + |Ellipsis| && r[..MaxDescriptionLength] == d[..MaxDescriptionLength]
      && r[MaxDescriptionLength..] == Ellipsis
  {
    if |d| > MaxDescriptionLength then d[..MaxDescriptionLength] + Ellipsis else d
  }

  /** Truncation never yields more than 503 bytes, keeps a prefix of the
      original, and truncating the shown text again changes nothing. */
  lemma TruncateBoundedAndIdempotent(d: string)
    ensures |TruncateDescription(d)| <= MaxDescriptionLength + |Ellipsis|
    ensures var n := if |d| < MaxDescriptionLength then |d| else MaxDescriptionLength;
      TruncateDescription(d)[..n] == d[..n]
    ensures TruncateDescription(TruncateDescription(d)) == TruncateDescription(d)
  {
  }

  /** The day of month and the month of a parsed date, in the ranges Go's `time`
      package returns them. */
  type Day = d: int | 1 <= d <= 31 witness 1
  type Month = m: int | 1 <= m <= 12 witness 1
  datatype Date = Date(day: Day, month: Month)

  predicate IsDigit(c: char) { '0' <= c <= '9' }

  predicate AllDigits(s: string) { forall i :: 0 <= i < |s| ==> IsDigit(s[i]) }

  function DigitChar(d: nat): (c: char)
    requires d < 10
    ensures IsDigit(c) && (c as int) - ('0' as int) == d
  {
    ((d + '0' as int) as char)
  }

  /** Decimal rendering without leading zeros, as `%d` prints a non-negative int. */
  function NatToString(n: nat): (s: string)
    ensures |s| >= 1 && AllDigits(s)
    ensures n < 10 <==> |s| == 1
    ensures n >= 10 ==> s[0] != '0'
    decreases n
  {
    if n < 10 then [DigitChar(n)] else NatToString(n / 10) + [DigitChar(n % 10)]
  }

  /** The number a string of decimal digits denotes. */
  function DecimalValue(s: string): nat
    requires AllDigits(s)
  {
    if s == [] then 0 else DecimalValue(s[..|s| - 1]) * 10 + ((s[|s| - 1] as int) - ('0' as int))
  }

  /** Reading the rendering back gives the number. */
  lemma {:induction false} DecimalRoundTrip(n: nat)
    ensures DecimalValue(NatToString(n)) == n
    decreases n
  {
    if n >= 10 {
      DecimalRoundTrip(n / 10);
      var s := NatToString(n);
      assert s[..|s| - 1] == NatToString(n / 10);
    }
  }

  /** The ordinal suffix the source picks from `day % 10`, with 11, 12 and 13
      kept at "th". */
  function OrdinalSuffix(day: Day): (suffix: string)
    ensures suffix == "st" <==> day % 10 == 1 && day != 11
    ensures suffix == "nd" <==> day % 10 == 2 && day != 12
    ensures suffix == "rd" <==> day % 10 == 3 && day != 13
    ensures suffix == "th" <==> !(day % 10 in {1, 2, 3}) || 11 <= day <= 13
  {
    var last := day % 10;
    if last == 1 && day != 11 then "st"
    else if last == 2 && day != 12 then "nd"
    else if last == 3 && day != 13 then "rd"
    else "th"
  }

  /** The English rule for ordinals in general: numbers whose last two digits
      are 11, 12 or 13 take "th"; otherwise the last digit decides. */
  function EnglishOrdinalSuffix(n: nat): string {
    if 11 <= n % 100 <= 13 then "th"
    else if n % 10 == 1 then "st"
    else if n % 10 == 2 then "nd"
    else if n % 10 == 3 then "rd"
    else "th"
  }

  /** On every day of a month the source's special cases agree with the general rule. */
  lemma OrdinalSuffixIsEnglish(day: Day)
    ensures OrdinalSuffix(day) == EnglishOrdinalSuffix(day)
  {
  }

  /** The month names `Format("January")` produces, January first. */
  const MonthNames: seq<string> := [
    "January", "February", "March", "April", "May", "June",
    "July", "August", "September", "October", "November", "December"]

  function MonthName(m: Month): (name: string)
    ensures 3 <= |name| <= 9 && 'A' <= name[0] <= 'Z'
    ensures forall i :: 0 <= i < |name| ==> !IsDigit(name[i])
  {
    MonthNames[m - 1]
  }

  lemma MonthNameInjective(m1: Month, m2: Month)
    requires MonthName(m1) == MonthName(m2)
    ensures m1 == m2
  {
  }

  /** A day of month with its ordinal suffix, such as "21st". */
  function DayOrdinal(day: Day): (text: string)
    ensures |text| >= 3
    ensures day < 10 <==> |text| == 3
    ensures text[|text| - 2] == OrdinalSuffix(day)[0] && text[|text| - 1] == OrdinalSuffix(day)[1]
  {
    assert (NatToString(day) + OrdinalSuffix(day))[..|NatToString(day)|] == NatToString(day);
    NatToString(day) + OrdinalSuffix(day)
  }

  /** The part in front of the suffix is decimal digits that read back as the day. */
  lemma DayOrdinalReadsBack(day: Day)
    ensures var text := DayOrdinal(day); AllDigits(text[..|text| - 2]) && DecimalValue(text[..|text| - 2]) == day
  {
    DecimalRoundTrip(day);
    assert DayOrdinal(day)[..|DayOrdinal(day)| - 2] == NatToString(day);
  }

  /** A parsed date as `"<day><suffix> of <month name>"`. */
  function RenderDate(d: Date): (text: string)
    ensures |text| > |MonthName(d.month)| && IsDigit(text[0])
    ensures text[|text| - |MonthName(d.month)|..] == MonthName(d.month)
  {
    DayOrdinal(d.day) + " of " + MonthName(d.month)
  }

  /** The number of leading decimal digits of `s`. */
  function LeadingDigits(s: string): (n: nat)
    ensures n <= |s|
  {
    if s == [] || !IsDigit(s[0]) then 0 else 1 + LeadingDigits(s[1..])
  }

  lemma {:induction false} LeadingDigitsOfConcat(ds: string, rest: string)
    requires AllDigits(ds)
    requires rest != [] && !IsDigit(rest[0])
    ensures LeadingDigits(ds + rest) == |ds|
    decreases |ds|
  {
    if ds != [] {
      assert (ds + rest)[1..] == ds[1..] + rest;
      LeadingDigitsOfConcat(ds[1..], rest);
    }
  }

  /** A rendering splits into the day's digits and a tail that starts with a
      letter and ends with the month name. */
  lemma RenderDateSplit(d: Date)
    ensures var tail := OrdinalSuffix(d.day) + " of " + MonthName(d.month);
      && RenderDate(d) == NatToString(d.day) + tail
      && tail != [] && !IsDigit(tail[0])
      && LeadingDigits(RenderDate(d)) == |NatToString(d.day)|
      && RenderDate(d)[|NatToString(d.day)| + |OrdinalSuffix(d.day)| + 4..] == MonthName(d.month)
  {
    var tail := OrdinalSuffix(d.day) + " of " + MonthName(d.month);
    assert RenderDate(d) == NatToString(d.day) + tail;
    LeadingDigitsOfConcat(NatToString(d.day), tail);
  }

  /** Distinct dates render differently. */
  lemma RenderDateInjective(a: Date, b: Date)
    requires RenderDate(a) == RenderDate(b)
    ensures a == b
  {
    var r := RenderDate(a);
    RenderDateSplit(a);
    RenderDateSplit(b);
    var da, db := NatToString(a.day), NatToString(b.day);
    assert da == r[..|da|] == db;
    DecimalRoundTrip(a.day);
    DecimalRoundTrip(b.day);
    MonthNameInjective(a.month, b.month);
  }

  /** A rendered date starts with a digit, so it is never the placeholder. */
  lemma RenderDateIsNotPlaceholder(d: Date)
    ensures RenderDate(d) != NotSpecified
  {
    assert RenderDate(d)[0] == NatToString(d.day)[0];
    assert !IsDigit(NotSpecified[0]);
  }

  /** `formatStartDate`: the placeholder for an empty string or a failed parse,
      otherwise the rendered date. `parse` stands for `time.Parse` with the
      RFC 3339 layout. */
  function FormatStartDate(dateStr: string, parse: string -> Option<Date>): (r: string)
    ensures r == NotSpecified <==> dateStr == "" || parse(dateStr).None?
    ensures dateStr != "" && parse(dateStr).Some? ==> r == RenderDate(parse(dateStr).value)
  {
    if dateStr == "" then NotSpecified
    else
      match parse(dateStr)
      case None => NotSpecified
      case Some(d) =>
        RenderDateIsNotPlaceholder(d);
        RenderDate(d)
  }

  /** The first days of a month render as... */
  lemma OrdinalExamplesFirstDays()
    ensures DayOrdinal(1) == "1st" && DayOrdinal(2) == "2nd" && DayOrdinal(3) == "3rd" && DayOrdinal(4) == "4th"
  {
  }

  /** ...the exceptions... */
  lemma OrdinalExamplesTeens()
    ensures DayOrdinal(11) == "11th" && DayOrdinal(12) == "12th" && DayOrdinal(13) == "13th"
  {
  }

  /** ...and the days after them. */
  lemma OrdinalExamplesTwenties()
    ensures DayOrdinal(21) == "21st" && DayOrdinal(22) == "22nd"
  {
  }

  /** One full rendering. */
  lemma RenderDateExample()
    ensures RenderDate(Date(21, 8)) == "21st of August"
  {
  }
}
