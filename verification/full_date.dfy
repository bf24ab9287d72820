/** The `full-date` grammar of section 5.6 of RFC 3339 (`YYYY-MM-DD`,
    four-digit year, two-digit month and day): the format `strftime("%Y-%m-%d")`
    writes the query dates in, and the strict subset of what
    `pd.to_datetime` reads back from the provider's `time` array. */
module FullDate {
  import opened Calendar
  import opened Wrappers

  predicate IsDigit(c: char) {
    '0' <= c <= '9'
  }

  function DigitValue(c: char): (n: int)
    requires IsDigit(c)
    ensures 0 <= n <= 9
  {
    c as int - '0' as int
  }

  function DigitChar(n: int): (c: char)
    requires 0 <= n <= 9
    ensures IsDigit(c) && DigitValue(c) == n
  {
    (n + '0' as int) as char
  }

  /** `n` written with exactly two digits, zero-padded. */
  function Pad2(n: int): (s: string)
    requires 0 <= n <= 99
  {
    [DigitChar(n / 10), DigitChar(n % 10)]
  }

  /** `n` written with exactly four digits, zero-padded. */
  function Pad4(n: int): (s: string)
    requires 0 <= n <= 9999
  {
    Pad2(n / 100) + Pad2(n % 100)
  }

  /** The value of a run of decimal digits. */
  function Number(s: string): (n: int)
    requires forall i :: 0 <= i < |s| ==> IsDigit(s[i])
    ensures n >= 0
  {
    if |s| == 0 then 0 else 10 * Number(s[..|s| - 1]) + DigitValue(s[|s| - 1])
  }

  /** The shape of a `full-date`: ten characters, dashes at offsets 4 and
      7, digits everywhere else. */
  predicate Shaped(s: string) {
    && |s| == 10
    && s[4] == '-' && s[7] == '-'
    && forall i :: 0 <= i < 10 && i != 4 && i != 7 ==> IsDigit(s[i])
  }

  /** `strftime("%Y-%m-%d")` on a date. */
  function Format(d: Date): (s: string)
    requires Valid(d)
    ensures Shaped(s)
  {
    Pad4(d.year) + "-" + Pad2(d.month) + "-" + Pad2(d.day)
  }

  /** Strict parse: a well-shaped string whose fields form a valid
      calendar date, and nothing else (`2024-02-30`, `0000-01-01`,
      `2024-1-5` and `""` are all rejected). */
  function Parse(s: string): (r: Option<Date>)
    ensures r.Some? ==> Valid(r.value) && Shaped(s)
  {
    if !Shaped(s) then None
    else
      var d := Date(Number(s[0..4]), Number(s[5..7]), Number(s[8..10]));
      if Valid(d) then Some(d) else None
  }

  lemma Number2(s: string)
    requires |s| == 2 && IsDigit(s[0]) && IsDigit(s[1])
    ensures Number(s) == 10 * DigitValue(s[0]) + DigitValue(s[1])
  {
    assert s[..1][..0] == [];
    assert Number(s[..1]) == DigitValue(s[0]);
  }

  lemma Number4(s: string)
    requires |s| == 4 && forall i :: 0 <= i < 4 ==> IsDigit(s[i])
    ensures Number(s) == 100 * Number(s[..2]) + Number(s[2..])
  {
    var hi := s[..2];
    assert s[..3][..2] == hi;
    Number2(hi);
    Number2(s[2..]);
    assert Number(s[..3]) == 10 * Number(hi) + DigitValue(s[2]);
  }

  lemma Pad2Number(n: int)
    requires 0 <= n <= 99
    ensures Number(Pad2(n)) == n
  {
    Number2(Pad2(n));
  }

  lemma Pad4Number(n: int)
    requires 0 <= n <= 9999
    ensures Number(Pad4(n)) == n
  {
    var s := Pad4(n);
    assert s[..2] == Pad2(n / 100) && s[2..] == Pad2(n % 100);
    Number4(s);
    Pad2Number(n / 100);
    Pad2Number(n % 100);
  }

  lemma NumberPad2(s: string)
    requires |s| == 2 && IsDigit(s[0]) && IsDigit(s[1])
    ensures 0 <= Number(s) <= 99
    ensures Pad2(Number(s)) == s
  {
    Number2(s);
  }

  lemma NumberPad4(s: string)
    requires |s| == 4 && forall i :: 0 <= i < 4 ==> IsDigit(s[i])
    ensures 0 <= Number(s) <= 9999
    ensures Pad4(Number(s)) == s
  {
    Number4(s);
    NumberPad2(s[..2]);
    NumberPad2(s[2..]);
    var n := Number(s);
    assert n / 100 == Number(s[..2]);
    assert n % 100 == Number(s[2..]);
    assert s == s[..2] + s[2..];
  }

  /** Formatting then parsing recovers the date: the query strings sent to
      the provider denote exactly the requested days. */
  lemma ParseFormat(d: Date)
    requires Valid(d)
    ensures Parse(Format(d)) == Some(d)
  {
    var s := Format(d);
    assert s[0..4] == Pad4(d.year);
    assert s[5..7] == Pad2(d.month);
    assert s[8..10] == Pad2(d.day);
    Pad4Number(d.year);
    Pad2Number(d.month);
    Pad2Number(d.day);
  }

  /** Parsing then formatting gives back the string: the grammar is
      canonical, so a parsed date has exactly one spelling. */
  lemma FormatParse(s: string)
    requires Parse(s).Some?
    ensures Format(Parse(s).value) == s
  {
    var d := Parse(s).value;
    NumberPad4(s[0..4]);
    NumberPad2(s[5..7]);
    NumberPad2(s[8..10]);
    assert Format(d) == s[0..4] + "-" + s[5..7] + "-" + s[8..10];
    assert s == s[0..4] + "-" + s[5..7] + "-" + s[8..10];
  }
}
