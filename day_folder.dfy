/**
 * The day-folder resolver: the watcher looks at `<base>/<YYYY-MM-DD>`, the
 * sub-folder of the watch root named after the current date.  The date is an
 * input here (the source reads it from the wall clock).
 */
module DayFolder {
  import opened Wrappers
  import opened Digits

  type Path = string

  datatype Date = Date(year: int, month: int, day: int)

  predicate LeapYear(y: int)
  {
    y % 4 == 0 && (y % 100 != 0 || y % 400 == 0)
  }

  function DaysInMonth(y: int, m: int): int
    requires 1 <= m <= 12
  {
    if m == 2 then (if LeapYear(y) then 29 else 28)
    else if m == 4 || m == 6 || m == 9 || m == 11 then 30
    else 31
  }

  /** The dates a Python `datetime` can hold: years 1 to 9999. */
  predicate ValidDate(d: Date)
  {
    1 <= d.year <= 9999 && 1 <= d.month <= 12 && 1 <= d.day <= DaysInMonth(d.year, d.month)
  }

  /**
   * `strftime("%Y-%m-%d")`, with the year written on four digits, as it is for
   * every year from 1000 on; glibc writes earlier years unpadded.
   */
  function FormatDate(d: Date): (s: string)
    requires ValidDate(d)
    ensures |s| == 10 && s[4] == '-' && s[7] == '-'
    ensures forall i :: 0 <= i < 10 && i != 4 && i != 7 ==> IsDigit(s[i])
  {
    Padded(d.year, 4) + "-" + Padded(d.month, 2) + "-" + Padded(d.day, 2)
  }

  /** Reads a `YYYY-MM-DD` string back into a date. */
  function ParseDate(s: string): (r: Option<Date>)
    ensures r.Some? <==> (|s| == 10 && s[4] == '-' && s[7] == '-' &&
                          forall i :: 0 <= i < 10 && i != 4 && i != 7 ==> IsDigit(s[i]))
  {
    if |s| == 10 && s[4] == '-' && s[7] == '-' &&
       forall i :: 0 <= i < 10 && i != 4 && i != 7 ==> IsDigit(s[i])
    then Some(Date(DigitsValue(s[..4]), DigitsValue(s[5..7]), DigitsValue(s[8..])))
    else None
  }

  /** The formatted date is read back as the same date. */
  lemma {:induction false} ParseFormatDate(d: Date)
    requires ValidDate(d)
    ensures ParseDate(FormatDate(d)) == Some(d)
  {
    var s := FormatDate(d);
    assert s[..4] == Padded(d.year, 4);
    assert s[5..7] == Padded(d.month, 2);
    assert s[8..] == Padded(d.day, 2);
    PaddedValue(d.year, 4);
    PaddedValue(d.month, 2);
    PaddedValue(d.day, 2);
  }

  /** Two dates have the same folder name only if they are the same date. */
  lemma FormatDateInjective(d1: Date, d2: Date)
    requires ValidDate(d1) && ValidDate(d2)
    ensures FormatDate(d1) == FormatDate(d2) <==> d1 == d2
  {
    ParseFormatDate(d1);
    ParseFormatDate(d2);
  }

  /** `os.path.join(base, name)` (POSIX rules) for a name that is not absolute. */
  function JoinPath(base: Path, name: string): (p: Path)
    requires name == [] || name[0] != '/'
    ensures |p| == |base| + |name| || |p| == |base| + 1 + |name|
    ensures |p| == |base| + 1 + |name| <==> base != [] && base[|base| - 1] != '/'
    ensures |p| == |base| + 1 + |name| ==> p[|base|] == '/'
    ensures p[..|base|] == base
    ensures p[|p| - |name|..] == name
  {
    if base == [] || base[|base| - 1] == '/' then base + name else base + "/" + name
  }

  /** get_current_day_folder: the watch root joined with today's date. */
  function CurrentDayFolder(base: Path, today: Date): Path
    requires ValidDate(today)
  {
    JoinPath(base, FormatDate(today))
  }

  /** The day folder lies under the watch root, and its last ten characters name the date. */
  lemma DayFolderNamesDate(base: Path, today: Date)
    requires ValidDate(today)
    ensures var p := CurrentDayFolder(base, today);
            |p| > |base| && p[..|base|] == base && ParseDate(p[|p| - 10..]) == Some(today)
  {
    ParseFormatDate(today);
  }

  /** Under one watch root, the day folder changes exactly when the date does. */
  lemma DayFolderInjective(base: Path, d1: Date, d2: Date)
    requires ValidDate(d1) && ValidDate(d2)
    ensures CurrentDayFolder(base, d1) == CurrentDayFolder(base, d2) <==> d1 == d2
  {
    DayFolderNamesDate(base, d1);
    DayFolderNamesDate(base, d2);
  }

  /** The example folder `/watch/2024-05-06`. */
  lemma DayFolderExample()
    ensures CurrentDayFolder("/watch", Date(2024, 5, 6)) == "/watch/2024-05-06"
  {
  }
}
