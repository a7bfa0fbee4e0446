/** Calendar timestamps as Python's `datetime` holds them, the EXIF text
    layout `strptime` reads, and the `strftime` layouts the program writes. */
module DateTimes {
  import opened Wrappers
  import opened Text

  datatype DateTime = DateTime(year: int, month: int, day: int, hour: int, minute: int, second: int)

  predicate IsLeapYear(y: int)
  {
    y % 4 == 0 && (y % 100 != 0 || y % 400 == 0)
  }

  function DaysInMonth(year: int, month: int): int
    requires 1 <= month <= 12
  {
    if month == 2 then (if IsLeapYear(year) then 29 else 28)
    else if month == 4 || month == 6 || month == 9 || month == 11 then 30
    else 31
  }

  /** The range checks of Python's `datetime` constructor. */
  predicate ValidDateTime(d: DateTime)
  {
    && 1 <= d.year <= 9999
    && 1 <= d.month <= 12
    && 1 <= d.day <= DaysInMonth(d.year, d.month)
    && 0 <= d.hour < 24 && 0 <= d.minute < 60 && 0 <= d.second < 60
  }

  /** A `datetime` value: every one the program handles satisfies the constructor's checks. */
  type Timestamp = d: DateTime | ValidDateTime(d) witness DateTime(1970, 1, 1, 0, 0, 0)

  /** The fixed-width layout "YYYY:MM:DD HH:MM:SS". */
  predicate ExifLayout(s: string)
  {
    && |s| == 19
    && AllDigits(s[0..4]) && s[4] == ':' && AllDigits(s[5..7]) && s[7] == ':' && AllDigits(s[8..10])
    && s[10] == ' '
    && AllDigits(s[11..13]) && s[13] == ':' && AllDigits(s[14..16]) && s[16] == ':' && AllDigits(s[17..19])
  }

  /** The six numbers an EXIF-layout string spells, before any range check. */
  function ExifFields(s: string): DateTime
    requires ExifLayout(s)
  {
    DateTime(DecimalValue(s[0..4]), DecimalValue(s[5..7]), DecimalValue(s[8..10]),
             DecimalValue(s[11..13]), DecimalValue(s[14..16]), DecimalValue(s[17..19]))
  }

  /** `datetime.strptime(s, "%Y:%m:%d %H:%M:%S")`, with `None` where it raises
      (wrong layout, or a field out of range). */
  function ParseExifDate(s: string): Option<Timestamp>
  {
    if ExifLayout(s) && ValidDateTime(ExifFields(s)) then Some(ExifFields(s)) else None
  }

  /** The text an EXIF writer stores for a timestamp, "YYYY:MM:DD HH:MM:SS". */
  function ExifText(d: Timestamp): string
    requires 1000 <= d.year
  {
    Decimal(d.year) + ":" + Pad2(d.month) + ":" + Pad2(d.day) + " "
      + Pad2(d.hour) + ":" + Pad2(d.minute) + ":" + Pad2(d.second)
  }

  /** `d.strftime("%Y%m%d_%H%M%S")`; `%Y` prints the year without padding, as the C library does. */
  function FormatStamp(d: Timestamp): string
  {
    Decimal(d.year) + Pad2(d.month) + Pad2(d.day) + "_" + Pad2(d.hour) + Pad2(d.minute) + Pad2(d.second)
  }

  /** Reads a "YYYYMMDD_HHMMSS" stamp back into a timestamp. */
  function ReadStamp(s: string): Option<Timestamp>
  {
    if |s| == 15 && AllDigits(s[0..8]) && s[8] == '_' && AllDigits(s[9..15]) then
      AllDigitsSlice(s, 0, 8, 0, 4);
      AllDigitsSlice(s, 0, 8, 4, 6);
      AllDigitsSlice(s, 0, 8, 6, 8);
      AllDigitsSlice(s, 9, 15, 9, 11);
      AllDigitsSlice(s, 9, 15, 11, 13);
      AllDigitsSlice(s, 9, 15, 13, 15);
      var d := DateTime(DecimalValue(s[0..4]), DecimalValue(s[4..6]), DecimalValue(s[6..8]),
                        DecimalValue(s[9..11]), DecimalValue(s[11..13]), DecimalValue(s[13..15]));
      if ValidDateTime(d) then Some(d) else None
    else None
  }

  /** For four-digit years the stamp is 15 characters: eight digits, '_', six digits. */
  lemma StampShape(d: Timestamp)
    requires 1000 <= d.year
    ensures |FormatStamp(d)| == 15
    ensures FormatStamp(d)[8] == '_'
    ensures AllDigits(FormatStamp(d)[0..8]) && AllDigits(FormatStamp(d)[9..15])
  {
    DecimalFourDigits(d.year);
    var r := FormatStamp(d);
    var y, mo, da := Decimal(d.year), Pad2(d.month), Pad2(d.day);
    var h, mi, se := Pad2(d.hour), Pad2(d.minute), Pad2(d.second);
    assert r == y + mo + da + "_" + h + mi + se;
    assert r[0..8] == y + mo + da;
    assert r[9..15] == h + mi + se;
  }

  /** The stamp in a canonical name can be read back into the timestamp it was made from. */
  lemma StampRoundTrip(d: Timestamp)
    requires 1000 <= d.year
    ensures ReadStamp(FormatStamp(d)) == Some(d)
  {
    StampShape(d);
    DecimalRoundTrip(d.year);
    var r := FormatStamp(d);
    var y, mo, da := Decimal(d.year), Pad2(d.month), Pad2(d.day);
    var h, mi, se := Pad2(d.hour), Pad2(d.minute), Pad2(d.second);
    assert r == y + mo + da + "_" + h + mi + se;
    assert r[0..4] == y && r[4..6] == mo && r[6..8] == da;
    assert r[9..11] == h && r[11..13] == mi && r[13..15] == se;
  }

  /** Parsing the text an EXIF writer stores gives back the timestamp. */
  lemma ParseExifRoundTrip(d: Timestamp)
    requires 1000 <= d.year
    ensures ParseExifDate(ExifText(d)) == Some(d)
  {
    DecimalFourDigits(d.year);
    DecimalRoundTrip(d.year);
    var s := ExifText(d);
    var y, mo, da := Decimal(d.year), Pad2(d.month), Pad2(d.day);
    var h, mi, se := Pad2(d.hour), Pad2(d.minute), Pad2(d.second);
    assert s == y + ":" + mo + ":" + da + " " + h + ":" + mi + ":" + se;
    assert s[0..4] == y && s[5..7] == mo && s[8..10] == da;
    assert s[11..13] == h && s[14..16] == mi && s[17..19] == se;
  }

  /** Parsing "YYYY:MM:DD HH:MM:SS" and formatting with "%Y%m%d_%H%M%S" keeps the six
      fields' digits and only drops the separators, e.g. "2024:01:23 10:15:30" becomes
      "20240123_101530" (the year written without a leading zero). */
  lemma ParseThenFormat(s: string)
    requires ParseExifDate(s).Some?
    requires s[0] != '0'
    ensures FormatStamp(ParseExifDate(s).value)
         == s[0..4] + s[5..7] + s[8..10] + "_" + s[11..13] + s[14..16] + s[17..19]
  {
    var d := ParseExifDate(s).value;
    assert s[0..4][0] == s[0];
    DecimalOfDigits(s[0..4]);
    Pad2OfDigits(s[5..7]);
    Pad2OfDigits(s[8..10]);
    Pad2OfDigits(s[11..13]);
    Pad2OfDigits(s[14..16]);
    Pad2OfDigits(s[17..19]);
  }

  /** The year of the example below renders as "2024". */
  lemma ExampleYear()
    ensures Decimal(2024) == "2024"
  {
    assert Decimal(2) == "2";
    assert Decimal(20) == "20";
    assert Decimal(202) == "202";
  }

  /** An example: "2024:01:23 10:15:30" is read as 23 January 2024, 10:15:30. */
  lemma ParseExample()
    ensures ParseExifDate("2024:01:23 10:15:30") == Some(DateTime(2024, 1, 23, 10, 15, 30))
  {
    var d := DateTime(2024, 1, 23, 10, 15, 30);
    ExampleYear();
    assert Pad2(1) == "01";
    assert Pad2(23) == "23";
    assert Pad2(10) == "10";
    assert Pad2(15) == "15";
    assert Pad2(30) == "30";
    assert ExifText(d) == "2024:01:23 10:15:30";
    ParseExifRoundTrip(d);
  }

  /** The same example is named "20240123_101530". */
  lemma FormatExample()
    ensures FormatStamp(DateTime(2024, 1, 23, 10, 15, 30)) == "20240123_101530"
  {
    ExampleYear();
    assert Pad2(1) == "01";
    assert Pad2(23) == "23";
    assert Pad2(10) == "10";
    assert Pad2(15) == "15";
    assert Pad2(30) == "30";
  }
}
