/** The week label "MM-DD" that names a week folder ("Week MM-DD"), as each
    revision builds it from the month and day fields. */
module Week {
  import opened Text

  /** on_start of 114, 111, 106 and 108: both fields, stripped, must be decimal
      digits with 1 <= month <= 12 and 1 <= day <= 31; the label zero-fills
      each stripped field to two characters. None: the "Invalid date" dialog. */
  function CheckedLabel(mmRaw: string, ddRaw: string): Option<string>
  {
    var mm, dd := Strip(mmRaw), Strip(ddRaw);
    if IsDigits(mm) && IsDigits(dd) && 1 <= DigitsValue(mm) <= 12 && 1 <= DigitsValue(dd) <= 31
    then Some(ZFill2(mm) + "-" + ZFill2(dd))
    else None
  }

  /** on_start of 101, 102, 103, 105 and 110: both fields must be non-empty and
      are used as they are. */
  function RawLabel(mm: string, dd: string): Option<string>
  {
    if mm != [] && dd != [] then Some(mm + "-" + dd) else None
  }

  /** A label is "MM-DD" with the two fields as they were given, so it names
      exactly the folder for those fields. */
  lemma RawLabelFields(mm: string, dd: string)
    ensures RawLabel(mm, dd).Some? <==> mm != [] && dd != []
    ensures RawLabel(mm, dd).Some? ==>
              var l := RawLabel(mm, dd).value;
              |l| == |mm| + 1 + |dd| && l[..|mm|] == mm && l[|mm|] == '-' && l[|mm| + 1..] == dd
  {
  }

  /** A one- or two-digit field zero-fills to the two-digit form of its value. */
  lemma ZFill2Canonical(s: string)
    requires IsDigits(s) && |s| <= 2
    ensures DigitsValue(s) < 100
    ensures ZFill2(s) == TwoDigits(DigitsValue(s))
  {
    if |s| == 1 {
      assert s == [s[0]];
      ZFill2One(s[0]);
    } else {
      assert s == [s[0], s[1]];
      ZFill2Two(s[0], s[1]);
    }
  }

  lemma ZFill2One(c: char)
    requires IsDigit(c)
    ensures DigitsValue([c]) < 10
    ensures ZFill2([c]) == TwoDigits(DigitsValue([c]))
  {
    DigitsValueOne(c);
    TwoDigitsOf(0, c as int - '0' as int);
  }

  lemma ZFill2Two(c: char, d: char)
    requires IsDigit(c) && IsDigit(d)
    ensures DigitsValue([c, d]) < 100
    ensures ZFill2([c, d]) == TwoDigits(DigitsValue([c, d]))
  {
    DigitsValueTwo(c, d);
    TwoDigitsOf(c as int - '0' as int, d as int - '0' as int);
  }

  /** The two-digit form of a * 10 + b is the digits of a and b. */
  lemma TwoDigitsOf(a: int, b: int)
    requires 0 <= a < 10 && 0 <= b < 10
    ensures a * 10 + b < 100
    ensures TwoDigits(a * 10 + b) == [('0' as int + a) as char, ('0' as int + b) as char]
  {
    var n := a * 10 + b;
    assert n / 10 == a && n % 10 == b;
    assert TwoDigits(n) == [('0' as int + n / 10) as char, ('0' as int + n % 10) as char];
  }

  /** A validated date whose fields have at most two digits gives the label
      of its month and day values, two digits each. */
  lemma CheckedLabelCanonical(mmRaw: string, ddRaw: string)
    requires CheckedLabel(mmRaw, ddRaw).Some?
    requires |Strip(mmRaw)| <= 2 && |Strip(ddRaw)| <= 2
    ensures DigitsValue(Strip(mmRaw)) < 100 && DigitsValue(Strip(ddRaw)) < 100
    ensures CheckedLabel(mmRaw, ddRaw).value
            == TwoDigits(DigitsValue(Strip(mmRaw))) + "-" + TwoDigits(DigitsValue(Strip(ddRaw)))
  {
    ZFill2Canonical(Strip(mmRaw));
    ZFill2Canonical(Strip(ddRaw));
  }

  lemma StripOfPadded()
    ensures Strip(" 5") == "5" && Strip("7 ") == "7"
  {
    assert " 5"[1..] == "5";
    assert StripLeft(" 5") == "5";
    StripUnchanged("5");
    StripUnchanged("7");
    assert "7 "[..1] == "7";
    assert StripRight("7 ") == "7";
  }

  /** White space around the fields is accepted and dropped. */
  lemma CheckedLabelStripsFields()
    ensures CheckedLabel(" 5", "7 ") == Some("05-07")
  {
    StripOfPadded();
    DigitsValueOne('5');
    DigitsValueOne('7');
    assert IsDigits("5") && IsDigits("7");
    assert DigitsValue("5") == 5 && DigitsValue("7") == 7;
    assert ZFill2("5") + "-" + ZFill2("7") == "05-07";
  }

  /** isdigit and int() accept a leading zero beyond two digits and zfill(2)
      keeps all of them, so "007" gives a three-digit field in the label. */
  lemma CheckedLabelKeepsLongField()
    ensures CheckedLabel("007", "05") == Some("007-05")
  {
    StripUnchanged("007");
    StripUnchanged("05");
    assert "007"[..2] == ['0', '0'];
    DigitsValueTwo('0', '0');
    DigitsValueTwo('0', '5');
    assert IsDigits("007") && IsDigits("05");
    assert DigitsValue("007") == 7 && DigitsValue("05") == 5;
    assert ZFill2("007") + "-" + ZFill2("05") == "007-05";
  }

  // ---------------------------------------------------------------------
  // The label of the folder scan
  // ---------------------------------------------------------------------

  /** _quick_scan_thread of 114 and 111 as written: zfill(2) of the fields as
      typed, without strip. */
  function ScanLabelAsWritten(mmRaw: string, ddRaw: string): string
  {
    ZFill2(mmRaw) + "-" + ZFill2(ddRaw)
  }

  /** refresh_scan of 106 and 108 as written: the combobox texts as they are. */
  function ComboScanLabel(mm: string, dd: string): string
  {
    mm + "-" + dd
  }

  /** A month typed with a space passes on_start's check as month 5, yet the
      114/111 scan looks for "Week  5-07" instead of "Week 05-07". */
  lemma ScanLabelMissesStrip()
    ensures CheckedLabel(" 5", "07") == Some("05-07")
    ensures ScanLabelAsWritten(" 5", "07") == " 5-07"
    ensures ScanLabelAsWritten(" 5", "07") != CheckedLabel(" 5", "07").value
  {
    StripOfPadded();
    StripUnchanged("07");
    DigitsValueOne('5');
    DigitsValueTwo('0', '7');
    assert IsDigits("5") && IsDigits("07");
    assert DigitsValue("5") == 5 && DigitsValue("07") == 7;
    assert ZFill2("5") + "-" + ZFill2("07") == "05-07";
    assert ZFill2(" 5") + "-" + ZFill2("07") == " 5-07";
    assert ScanLabelAsWritten(" 5", "07")[0] == ' ';
  }

  /** A month typed as "5" in the editable combobox passes on_start's check and
      gives the label "05-07" there, while the 106/108 scan that supplies the
      week folder looks for "Week 5-7". */
  lemma ComboScanLabelMissesZFill()
    ensures CheckedLabel("5", "7") == Some("05-07")
    ensures ComboScanLabel("5", "7") == "5-7"
    ensures ComboScanLabel("5", "7") != CheckedLabel("5", "7").value
  {
    StripUnchanged("5");
    StripUnchanged("7");
    DigitsValueOne('5');
    DigitsValueOne('7');
    assert IsDigits("5") && IsDigits("7");
    assert DigitsValue("5") == 5 && DigitsValue("7") == 7;
    assert ZFill2("5") + "-" + ZFill2("7") == "05-07";
    assert |ComboScanLabel("5", "7")| == 3;
  }

  /** The scan label as evidently intended: the fields stripped, then
      zero-filled, as on_start does. */
  function ScanLabel(mmRaw: string, ddRaw: string): string
  {
    ZFill2(Strip(mmRaw)) + "-" + ZFill2(Strip(ddRaw))
  }

  lemma StripIdempotent(s: string)
    ensures Strip(Strip(s)) == Strip(s)
  {
    StripSpec(s);
    StripUnchanged(Strip(s));
  }

  /** The corrected scan looks for the same week folder as on_start's label
      names, whatever white space surrounds the fields, and for two-digit
      fields its label is the canonical two-digit one. */
  lemma ScanLabelAgreesWithCheck(mmRaw: string, ddRaw: string)
    ensures ScanLabel(mmRaw, ddRaw) == ScanLabel(Strip(mmRaw), Strip(ddRaw))
    ensures CheckedLabel(mmRaw, ddRaw).Some? ==> ScanLabel(mmRaw, ddRaw) == CheckedLabel(mmRaw, ddRaw).value
    ensures CheckedLabel(mmRaw, ddRaw).Some? && |Strip(mmRaw)| <= 2 && |Strip(ddRaw)| <= 2 ==>
              ScanLabel(mmRaw, ddRaw)
              == TwoDigits(DigitsValue(Strip(mmRaw))) + "-" + TwoDigits(DigitsValue(Strip(ddRaw)))
  {
    StripIdempotent(mmRaw);
    StripIdempotent(ddRaw);
    if CheckedLabel(mmRaw, ddRaw).Some? && |Strip(mmRaw)| <= 2 && |Strip(ddRaw)| <= 2 {
      CheckedLabelCanonical(mmRaw, ddRaw);
    }
  }
}
