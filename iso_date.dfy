/**
 * Instants in the ISO 8601 extended format that `Date.prototype.toISOString`
 * writes ("2025-06-01T09:00:00.000Z"), and reading them back.
 */
module IsoDate {
  import opened Wrappers
  import opened Decimal

  /** The UTC calendar fields of an instant, to the millisecond. */
  datatype DateTime = DateTime(year: nat, month: nat, day: nat, hour: nat, minute: nat, second: nat, millis: nat)

  /** Fields in range, for a year `toISOString` writes with four digits. */
  predicate Valid(d: DateTime) {
    && d.year < 10000
    && 1 <= d.month <= 12 && 1 <= d.day <= 31
    && d.hour < 24 && d.minute < 60 && d.second < 60 && d.millis < 1000
  }

  /** An instant of the kind a date picker produces. */
  type Date = d: DateTime | Valid(d) witness DateTime(1970, 1, 1, 0, 0, 0, 0)

  lemma Widths()
    ensures Pow10(2) == 100 && Pow10(3) == 1000 && Pow10(4) == 10000
  {
  }

  /** `toISOString()`: "YYYY-MM-DDTHH:mm:ss.sssZ". */
  function Format(d: Date): (s: string)
    ensures |s| == 24
    ensures s[4] == '-' && s[7] == '-' && s[10] == 'T' && s[13] == ':' && s[16] == ':' && s[19] == '.' && s[23] == 'Z'
  {
    Widths();
    Digits(d.year, 4) + "-" + Digits(d.month, 2) + "-" + Digits(d.day, 2)
      + "T" + Digits(d.hour, 2) + ":" + Digits(d.minute, 2) + ":" + Digits(d.second, 2)
      + "." + Digits(d.millis, 3) + "Z"
  }

  /** Whether `s` has the separators of the format at their places and digits everywhere else. */
  predicate WellFormed(s: string) {
    && |s| == 24
    && s[4] == '-' && s[7] == '-' && s[10] == 'T' && s[13] == ':' && s[16] == ':' && s[19] == '.' && s[23] == 'Z'
    && AllDigits(s[0..4]) && AllDigits(s[5..7]) && AllDigits(s[8..10]) && AllDigits(s[11..13])
    && AllDigits(s[14..16]) && AllDigits(s[17..19]) && AllDigits(s[20..23])
  }

  /** Reading an instant written in that format; none when the text is not one, or a field is out of range. */
  function Parse(s: string): (r: Option<Date>)
    ensures r.Some? ==> WellFormed(s)
  {
    if !WellFormed(s) then None
    else
      var d := DateTime(Value(s[0..4]), Value(s[5..7]), Value(s[8..10]), Value(s[11..13]),
                        Value(s[14..16]), Value(s[17..19]), Value(s[20..23]));
      if Valid(d) then Some(d) else None
  }

  /** Reading what `toISOString` wrote gives the same instant back. */
  lemma {:induction false} ParseFormat(d: Date)
    ensures Parse(Format(d)) == Some(d)
  {
    Widths();
    var s := Format(d);
    assert s[0..4] == Digits(d.year, 4);
    assert s[5..7] == Digits(d.month, 2);
    assert s[8..10] == Digits(d.day, 2);
    assert s[11..13] == Digits(d.hour, 2);
    assert s[14..16] == Digits(d.minute, 2);
    assert s[17..19] == Digits(d.second, 2);
    assert s[20..23] == Digits(d.millis, 3);
    ValueOfDigits(d.year, 4);
    ValueOfDigits(d.month, 2);
    ValueOfDigits(d.day, 2);
    ValueOfDigits(d.hour, 2);
    ValueOfDigits(d.minute, 2);
    ValueOfDigits(d.second, 2);
    ValueOfDigits(d.millis, 3);
  }

  /** Only the canonical text of an instant is read as that instant. */
  lemma {:induction false} FormatParse(s: string)
    requires Parse(s).Some?
    ensures Format(Parse(s).value) == s
  {
    var d := Parse(s).value;
    DigitsOfValue(s[0..4]);
    DigitsOfValue(s[5..7]);
    DigitsOfValue(s[8..10]);
    DigitsOfValue(s[11..13]);
    DigitsOfValue(s[14..16]);
    DigitsOfValue(s[17..19]);
    DigitsOfValue(s[20..23]);
    Reassemble(s);
  }

  /** A text of the format's length and separators is its fields and separators put together again. */
  lemma Reassemble(s: string)
    requires |s| == 24
    requires s[4] == '-' && s[7] == '-' && s[10] == 'T' && s[13] == ':' && s[16] == ':' && s[19] == '.' && s[23] == 'Z'
    ensures s == s[0..4] + "-" + s[5..7] + "-" + s[8..10] + "T" + s[11..13] + ":" + s[14..16] + ":" + s[17..19]
                 + "." + s[20..23] + "Z"
  {
  }
}
