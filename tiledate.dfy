/** Calendar dates as `datetime.strptime(text, '%Y%m%d')` reads them and
    `strftime('%Y%m%d')` / `strftime('%Y-%m')` write them. */
module TileDate {
  import opened Values

  datatype Date = Date(year: int, month: int, day: int)

  predicate IsLeap(y: int) {
    y % 4 == 0 && (y % 100 != 0 || y % 400 == 0)
  }

  function DaysInMonth(y: int, m: int): int
    requires 1 <= m <= 12
  {
    if m == 2 then (if IsLeap(y) then 29 else 28)
    else if m == 4 || m == 6 || m == 9 || m == 11 then 30
    else 31
  }

  /** A date `datetime` accepts: years 1 to 9999 and a day that exists. */
  predicate ValidDate(d: Date) {
    1 <= d.year <= 9999 && 1 <= d.month <= 12 && 1 <= d.day <= DaysInMonth(d.year, d.month)
  }

  predicate IsDigit(c: char) {
    '0' <= c <= '9'
  }

  predicate AllDigits(s: string) {
    forall i :: 0 <= i < |s| ==> IsDigit(s[i])
  }

  /** The value of a digit; any other character (the space `int()` strips)
      counts as 0. */
  function CharValue(c: char): nat {
    if IsDigit(c) then c as int - '0' as int else 0
  }

  /** `int(t)` for the short digit groups the date regex captures. */
  function NumValue(t: string): nat
    decreases |t|
  {
    if t == "" then 0 else 10 * NumValue(t[..|t| - 1]) + CharValue(t[|t| - 1])
  }

  function DigitChar(n: nat): char
    requires n < 10
  {
    ('0' as int + n) as char
  }

  // ---------------------------------------------------------------------
  // strptime(text, '%Y%m%d')
  //
  // CPython compiles the format into the regex
  //   (?P<Y>\d\d\d\d)(?P<m>1[0-2]|0[1-9]|[1-9])(?P<d>3[01]|[12]\d|0[1-9]|[1-9]| [1-9])
  // matches it at the start of the text (taking, in each group, the first
  // alternative with which the regex still matches), refuses the text when
  // characters remain after the match, and then builds the date.

  /** The widths the alternatives of the month group match at `i`, in the
      order the regex tries them. */
  function MonthWidths(s: string, i: nat): seq<nat> {
    (if i + 1 < |s| && s[i] == '1' && '0' <= s[i + 1] <= '2' then [2] else [])
    + (if i + 1 < |s| && s[i] == '0' && '1' <= s[i + 1] <= '9' then [2] else [])
    + (if i < |s| && '1' <= s[i] <= '9' then [1] else [])
  }

  /** The widths the alternatives of the day group match at `j`, in order. */
  function DayWidths(s: string, j: nat): seq<nat> {
    (if j + 1 < |s| && s[j] == '3' && '0' <= s[j + 1] <= '1' then [2] else [])
    + (if j + 1 < |s| && '1' <= s[j] <= '2' && IsDigit(s[j + 1]) then [2] else [])
    + (if j + 1 < |s| && s[j] == '0' && '1' <= s[j + 1] <= '9' then [2] else [])
    + (if j < |s| && '1' <= s[j] <= '9' then [1] else [])
    + (if j + 1 < |s| && s[j] == ' ' && '1' <= s[j + 1] <= '9' then [2] else [])
  }

  /** The widths of the month and day groups in the regex's match. */
  datatype Groups = Groups(monthWidth: nat, dayWidth: nat)

  function FirstGroups(s: string, monthWidths: seq<nat>): (r: Option<Groups>)
    ensures r.Some? ==> r.value.monthWidth in monthWidths
    ensures r.Some? ==> |DayWidths(s, 4 + r.value.monthWidth)| > 0
                        && r.value.dayWidth == DayWidths(s, 4 + r.value.monthWidth)[0]
    decreases |monthWidths|
  {
    if monthWidths == [] then None
    else
      var days := DayWidths(s, 4 + monthWidths[0]);
      if days != [] then Some(Groups(monthWidths[0], days[0]))
      else FirstGroups(s, monthWidths[1..])
  }

  function MatchGroups(s: string): Option<Groups> {
    if |s| < 4 || !AllDigits(s[..4]) then None
    else FirstGroups(s, MonthWidths(s, 4))
  }

  /** `datetime.strptime(s, '%Y%m%d')`; `None` where it raises ValueError. */
  function Strptime(s: string): (r: Option<Date>)
    ensures r.Some? ==> ValidDate(r.value)
  {
    match MatchGroups(s)
    case None => None
    case Some(g) =>
      if 4 + g.monthWidth + g.dayWidth != |s| then None
      else
        var d := Date(NumValue(s[..4]), NumValue(s[4..4 + g.monthWidth]),
                      NumValue(s[4 + g.monthWidth..]));
        if ValidDate(d) then Some(d) else None
  }

  // ---------------------------------------------------------------------
  // strftime

  function Pad2(n: nat): string
    requires n < 100
  {
    [DigitChar(n / 10), DigitChar(n % 10)]
  }

  function Pad4(n: nat): string
    requires n < 10000
  {
    Pad2(n / 100) + Pad2(n % 100)
  }

  /** `strftime('%Y%m%d')`: eight digits. */
  function FormatYmd(d: Date): (r: string)
    requires ValidDate(d)
    ensures |r| == 8 && AllDigits(r)
  {
    Pad4(d.year) + Pad2(d.month) + Pad2(d.day)
  }

  /** `strftime('%Y-%m')`: the year and month digits of '%Y%m%d' with a
      '-' between them. */
  function FormatYm(d: Date): (r: string)
    requires ValidDate(d)
    ensures r == FormatYmd(d)[..4] + "-" + FormatYmd(d)[4..6]
  {
    Pad4(d.year) + "-" + Pad2(d.month)
  }

  // ---------------------------------------------------------------------
  // Properties

  /** The date an eight-digit text spells positionally. */
  function Positional(s: string): Date
    requires |s| == 8
  {
    Date(NumValue(s[..4]), NumValue(s[4..6]), NumValue(s[6..]))
  }

  lemma NumValue2(t: string)
    requires |t| == 2
    ensures NumValue(t) == 10 * CharValue(t[0]) + CharValue(t[1])
  {
    var h := t[..1];
    assert h[..0] == "" && h[0] == t[0];
    assert NumValue(h) == CharValue(t[0]);
  }

  lemma NumValue4(t: string)
    requires |t| == 4
    ensures NumValue(t) == 1000 * CharValue(t[0]) + 100 * CharValue(t[1]) + 10 * CharValue(t[2]) + CharValue(t[3])
  {
    NumValue2(t[..2]);
    assert t[..3][..2] == t[..2];
    assert t[..2][0] == t[0] && t[..2][1] == t[1];
  }

  /** When the positional month and day pass the regex's groups, the
      regex takes both groups two digits wide. */
  lemma PositionalGroups(s: string)
    requires |s| == 8 && AllDigits(s)
    requires 1 <= Positional(s).month <= 12 && 1 <= Positional(s).day <= 31
    ensures MatchGroups(s) == Some(Groups(2, 2))
  {
    assert AllDigits(s[..4]);
    NumValue2(s[4..6]);
    NumValue2(s[6..]);
    assert s[4..6][0] == s[4] && s[4..6][1] == s[5];
    assert s[6..][0] == s[6] && s[6..][1] == s[7];
    assert IsDigit(s[4]) && IsDigit(s[5]) && IsDigit(s[6]) && IsDigit(s[7]);
    var ms := MonthWidths(s, 4);
    assert |ms| > 0 && ms[0] == 2;
    var ds := DayWidths(s, 6);
    assert |ds| > 0 && ds[0] == 2;
  }

  /** A match that covers all eight characters has two-digit month and day
      groups. */
  lemma FullMatchIsPositional(s: string, g: Groups)
    requires |s| == 8
    requires MatchGroups(s) == Some(g) && 4 + g.monthWidth + g.dayWidth == 8
    ensures g == Groups(2, 2)
  {
    assert g.monthWidth in MonthWidths(s, 4);
    assert g.dayWidth in DayWidths(s, 4 + g.monthWidth);
  }

  /** On eight ASCII digits strptime reads the date positionally, and
      accepts the text exactly when that date exists. */
  lemma StrptimeEightDigits(s: string)
    requires |s| == 8 && AllDigits(s)
    ensures Strptime(s).Some? <==> ValidDate(Positional(s))
    ensures Strptime(s).Some? ==> Strptime(s).value == Positional(s)
  {
    var p := Positional(s);
    if ValidDate(p) {
      PositionalGroups(s);
      assert s[4..4 + 2] == s[4..6] && s[4 + 2..] == s[6..];
    }
    match MatchGroups(s)
    case None =>
    case Some(g) =>
      if 4 + g.monthWidth + g.dayWidth == 8 {
        FullMatchIsPositional(s, g);
        assert s[4..4 + g.monthWidth] == s[4..6] && s[4 + g.monthWidth..] == s[6..];
      }
  }

  lemma Div10(q: nat, r: nat)
    requires r < 10
    ensures (10 * q + r) / 10 == q && (10 * q + r) % 10 == r
  {
  }

  lemma Div100(q: nat, r: nat)
    requires r < 100
    ensures (100 * q + r) / 100 == q && (100 * q + r) % 100 == r
  {
  }

  /** The four decimal digits Pad4 writes for `1000a + 100b + 10c + d`. */
  lemma Pad4Digits(a: nat, b: nat, c: nat, d: nat)
    requires a < 10 && b < 10 && c < 10 && d < 10
    ensures var n := 1000 * a + 100 * b + 10 * c + d;
            n < 10000 && Pad4(n) == [DigitChar(a), DigitChar(b), DigitChar(c), DigitChar(d)]
  {
    Div100(10 * a + b, 10 * c + d);
    Div10(a, b);
    Div10(c, d);
  }

  lemma DigitCharOfValue(c: char)
    requires IsDigit(c)
    ensures CharValue(c) < 10 && DigitChar(CharValue(c)) == c
  {
  }

  lemma PadNumValue4(t: string)
    requires |t| == 4 && AllDigits(t)
    ensures NumValue(t) < 10000 && Pad4(NumValue(t)) == t
  {
    NumValue4(t);
    assert IsDigit(t[0]) && IsDigit(t[1]) && IsDigit(t[2]) && IsDigit(t[3]);
    DigitCharOfValue(t[0]);
    DigitCharOfValue(t[1]);
    DigitCharOfValue(t[2]);
    DigitCharOfValue(t[3]);
    Pad4Digits(CharValue(t[0]), CharValue(t[1]), CharValue(t[2]), CharValue(t[3]));
    assert t == [t[0], t[1], t[2], t[3]];
  }

  lemma PadNumValue2(t: string)
    requires |t| == 2 && AllDigits(t)
    ensures NumValue(t) < 100 && Pad2(NumValue(t)) == t
  {
    NumValue2(t);
  }

  lemma DigitCharValue(k: nat)
    requires k < 10
    ensures IsDigit(DigitChar(k)) && CharValue(DigitChar(k)) == k
  {
  }

  lemma NumValuePad4(n: nat)
    requires n < 10000
    ensures AllDigits(Pad4(n)) && NumValue(Pad4(n)) == n
  {
    var t := Pad4(n);
    var h, l := n / 100, n % 100;
    assert t == [DigitChar(h / 10), DigitChar(h % 10), DigitChar(l / 10), DigitChar(l % 10)];
    NumValue4(t);
    DigitCharValue(h / 10);
    DigitCharValue(h % 10);
    DigitCharValue(l / 10);
    DigitCharValue(l % 10);
    assert h == 10 * (h / 10) + h % 10 && l == 10 * (l / 10) + l % 10;
    assert n == 100 * h + l;
  }

  lemma NumValuePad2(n: nat)
    requires n < 100
    ensures AllDigits(Pad2(n)) && NumValue(Pad2(n)) == n
  {
    NumValue2(Pad2(n));
    DigitCharValue(n / 10);
    DigitCharValue(n % 10);
  }

  /** Formatting a date and reading it back gives the same date. */
  lemma StrptimeOfFormat(d: Date)
    requires ValidDate(d)
    ensures Strptime(FormatYmd(d)) == Some(d)
  {
    var s := FormatYmd(d);
    NumValuePad4(d.year);
    NumValuePad2(d.month);
    NumValuePad2(d.day);
    assert s[..4] == Pad4(d.year) && s[4..6] == Pad2(d.month) && s[6..] == Pad2(d.day);
    assert AllDigits(s) by {
      forall i | 0 <= i < 8 ensures IsDigit(s[i]) {
        if i < 4 { assert s[i] == s[..4][i]; }
        else if i < 6 { assert s[i] == s[4..6][i - 4]; }
        else { assert s[i] == s[6..][i - 6]; }
      }
    }
    StrptimeEightDigits(s);
  }

  /** A zero-padded eight-digit date that strptime accepts is written back
      unchanged by '%Y%m%d', and '%Y-%m' writes its first six digits as
      `YYYY-MM`. */
  lemma FormatOfStrptime(s: string)
    requires |s| == 8 && AllDigits(s) && Strptime(s).Some?
    ensures FormatYmd(Strptime(s).value) == s
    ensures FormatYm(Strptime(s).value) == s[..4] + "-" + s[4..6]
  {
    StrptimeEightDigits(s);
    assert AllDigits(s[..4]) && AllDigits(s[4..6]) && AllDigits(s[6..]);
    PadNumValue4(s[..4]);
    PadNumValue2(s[4..6]);
    PadNumValue2(s[6..]);
    assert s == s[..4] + s[4..6] + s[6..];
  }

  /** strptime also reads a date whose month is not zero-padded. */
  lemma StrptimeUnpaddedMonth()
    ensures Strptime("2020826") == Some(Date(2020, 8, 26))
  {
    var s := "2020826";
    assert AllDigits(s[..4]);
    assert MonthWidths(s, 4) == [1];
    assert DayWidths(s, 5) == [2, 1];
    assert s[..4] == "2020" && s[4..5] == "8" && s[5..] == "26";
    NumValue4("2020");
    NumValue2("26");
  }
}
