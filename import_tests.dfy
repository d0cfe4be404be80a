/**
 * The parser self-test of the import tooling: twelve named cases, each feeding a
 * file name or a date folder to the parser and comparing the result with the
 * expected one, and the runner that counts passes and failures and picks the
 * exit status.
 */
module ImportTests {
  import opened Outcomes
  import opened Text
  import opened Calendar
  import opened LegacyImport

  /**
   * What a case checks. A date case's expected value is written as the ISO text the
   * test gives to `new Date(...)`; no expected value is written `None`.
   */
  datatype Check =
    | FilenameCheck(input: string, expected: Option<ParsedFilename>)
    | DateCheck(input: string, expectedIso: Option<string>)

  datatype TestCase = TestCase(name: string, check: Check)

  const TestCases: seq<TestCase> := [
    TestCase("Filename valido standard",
      FilenameCheck("ABC RICAMI 1894.pdf", Some(ParsedFilename("ABC RICAMI", "1894", "pdf")))),
    TestCase("Filename con spazi multipli",
      FilenameCheck("ATELIER AMELIER 162.pdf", Some(ParsedFilename("ATELIER AMELIER", "162", "pdf")))),
    TestCase("Filename con numero lungo",
      FilenameCheck("VALENTINO 9000028669.pdf", Some(ParsedFilename("VALENTINO", "9000028669", "pdf")))),
    TestCase("Filename con fornitore con apostrofo",
      FilenameCheck("TOD'S 2409.pdf", Some(ParsedFilename("TOD'S", "2409", "pdf")))),
    TestCase("Filename JPG",
      FilenameCheck("FORNITORE TEST 123.jpg", Some(ParsedFilename("FORNITORE TEST", "123", "jpg")))),
    TestCase("Filename invalido (senza numero)",
      FilenameCheck("DOCUMENTO SENZA NUMERO.pdf", None)),
    TestCase("Filename invalido (solo numero)",
      FilenameCheck("12345.pdf", None)),
    TestCase("Data valida", DateCheck("01-08-2023", Some("2023-08-01"))),
    TestCase("Data valida con zeri", DateCheck("09-01-2023", Some("2023-01-09"))),
    TestCase("Data con pattern % (bug legacy)", DateCheck("%d-%m-%Y", None)),
    TestCase("Data invalida (formato errato)", DateCheck("2023-08-01", None)),
    TestCase("Data invalida (valori impossibili)", DateCheck("32-13-2023", None))
  ]

  /**
   * The runner's comparison: both absent passes; both present compares the three
   * fields, or the two instants (an expected text that is no date never compares equal);
   * one absent and one present fails.
   */
  predicate CasePasses(c: TestCase) {
    match c.check
    case FilenameCheck(input, expected) =>
      (match (ParseFilename(input), expected)
       case (None, None) => true
       case (Some(r), Some(e)) => r.supplier == e.supplier && r.docNumber == e.docNumber && r.extension == e.extension
       case _ => false)
    case DateCheck(input, expectedIso) =>
      match (ParseDate(input), expectedIso)
      case (None, None) => true
      case (Some(r), Some(t)) => ParseIsoDate(t) == Some(r)
      case _ => false
  }

  /** A filename case passes exactly when the parser returns the expected value. */
  lemma FilenameCasePassesIff(c: TestCase)
    requires c.check.FilenameCheck?
    ensures CasePasses(c) <==> ParseFilename(c.check.input) == c.check.expected
  {
  }

  lemma FilenameCasePasses(c: TestCase, input: string, expected: Option<ParsedFilename>)
    requires c.check == FilenameCheck(input, expected) && ParseFilename(input) == expected
    ensures CasePasses(c)
  {
  }

  lemma DateCasePasses(c: TestCase, input: string, iso: string, d: Date)
    requires c.check == DateCheck(input, Some(iso)) && ParseDate(input) == Some(d) && ParseIsoDate(iso) == Some(d)
    ensures CasePasses(c)
  {
  }

  /** A date case passes exactly when the parser returns the date the expected text denotes. */
  lemma DateCasePassesIff(c: TestCase)
    requires c.check.DateCheck?
    ensures CasePasses(c) <==>
              match c.check.expectedIso
              case None => ParseDate(c.check.input).None?
              case Some(t) => ParseIsoDate(t).Some? && ParseDate(c.check.input) == ParseIsoDate(t)
  {
  }

  /** How many of the cases satisfy `p`. */
  function CountWhere(cases: seq<TestCase>, p: TestCase -> bool): (n: nat)
    ensures n <= |cases|
  {
    if |cases| == 0 then 0
    else CountWhere(cases[..|cases| - 1], p) + (if p(cases[|cases| - 1]) then 1 else 0)
  }

  /** The count reaches the number of cases exactly when every case satisfies `p`. */
  lemma {:induction false} CountWhereAll(cases: seq<TestCase>, p: TestCase -> bool)
    ensures CountWhere(cases, p) == |cases| <==> forall i :: 0 <= i < |cases| ==> p(cases[i])
  {
    if |cases| > 0 {
      var init := cases[..|cases| - 1];
      CountWhereAll(init, p);
      assert forall i :: 0 <= i < |init| ==> init[i] == cases[i];
    }
  }

  /** How many of the cases pass. */
  function PassCount(cases: seq<TestCase>): nat {
    CountWhere(cases, CasePasses)
  }

  /** All cases pass exactly when the pass count is the number of cases. */
  lemma PassCountAll(cases: seq<TestCase>)
    ensures PassCount(cases) == |cases| <==> forall i :: 0 <= i < |cases| ==> CasePasses(cases[i])
  {
    CountWhereAll(cases, CasePasses);
  }

  /** `runTests`: the pass and fail counts, and exit status 0 only when nothing failed. */
  method RunTests(cases: seq<TestCase>) returns (passed: nat, failed: nat, exitCode: int)
    ensures passed == PassCount(cases) && passed + failed == |cases|
    ensures exitCode == 0 <==> forall i :: 0 <= i < |cases| ==> CasePasses(cases[i])
    ensures exitCode == 0 || exitCode == 1
  {
    passed, failed := 0, 0;
    for index := 0 to |cases|
      invariant passed == PassCount(cases[..index]) && passed + failed == index
    {
      assert cases[..index + 1][..index] == cases[..index];
      var success := CasePasses(cases[index]);
      if success {
        passed := passed + 1;
      } else {
        failed := failed + 1;
      }
    }
    assert cases[..|cases|] == cases;
    PassCountAll(cases);
    exitCode := if failed == 0 then 0 else 1;
  }

  // ---------------------------------------------------------------------------
  // The twelve cases
  // ---------------------------------------------------------------------------

  /** A file name made of a trimmed supplier, blanks, digits and a lower-case extension parses into those parts. */
  lemma ParsesAs(filename: string, name: string, ext: string, p: string, w: string, d: string)
    requires IsExtensionSplit(filename, name, ext) && IsNumberSplit(name, p, w, d)
    requires Trim(p) == p && Lower(ext) == ext
    ensures ParseFilename(filename) == Some(ParsedFilename(p, d, ext))
  {
    ParseFilenameComplete(filename, name, ext, p, w, d);
  }

  lemma Parses1()
    ensures ParseFilename("ABC RICAMI 1894.pdf") == Some(ParsedFilename("ABC RICAMI", "1894", "pdf"))
  {
    assert IsExtensionSplit("ABC RICAMI 1894.pdf", "ABC RICAMI 1894", "pdf") by {
      assert "ABC RICAMI 1894.pdf" == "ABC RICAMI 1894" + "." + "pdf";
    }
    assert IsNumberSplit("ABC RICAMI 1894", "ABC RICAMI", " ", "1894") by {
      assert "ABC RICAMI 1894" == "ABC RICAMI" + " " + "1894";
    }
    TrimUnchanged("ABC RICAMI");
    LowerUnchanged("pdf");
    ParsesAs("ABC RICAMI 1894.pdf", "ABC RICAMI 1894", "pdf", "ABC RICAMI", " ", "1894");
  }

  lemma Case1()
    ensures CasePasses(TestCases[0])
  {
    var expected := Some(ParsedFilename("ABC RICAMI", "1894", "pdf"));
    assert TestCases[0].check == FilenameCheck("ABC RICAMI 1894.pdf", expected);
    Parses1();
    FilenameCasePasses(TestCases[0], "ABC RICAMI 1894.pdf", expected);
  }

  lemma Parses2()
    ensures ParseFilename("ATELIER AMELIER 162.pdf") == Some(ParsedFilename("ATELIER AMELIER", "162", "pdf"))
  {
    assert IsExtensionSplit("ATELIER AMELIER 162.pdf", "ATELIER AMELIER 162", "pdf") by {
      assert "ATELIER AMELIER 162.pdf" == "ATELIER AMELIER 162" + "." + "pdf";
    }
    assert IsNumberSplit("ATELIER AMELIER 162", "ATELIER AMELIER", " ", "162") by {
      assert "ATELIER AMELIER 162" == "ATELIER AMELIER" + " " + "162";
    }
    TrimUnchanged("ATELIER AMELIER");
    LowerUnchanged("pdf");
    ParsesAs("ATELIER AMELIER 162.pdf", "ATELIER AMELIER 162", "pdf", "ATELIER AMELIER", " ", "162");
  }

  lemma Case2()
    ensures CasePasses(TestCases[1])
  {
    var expected := Some(ParsedFilename("ATELIER AMELIER", "162", "pdf"));
    assert TestCases[1].check == FilenameCheck("ATELIER AMELIER 162.pdf", expected);
    Parses2();
    FilenameCasePasses(TestCases[1], "ATELIER AMELIER 162.pdf", expected);
  }

  lemma Parses3()
    ensures ParseFilename("VALENTINO 9000028669.pdf") == Some(ParsedFilename("VALENTINO", "9000028669", "pdf"))
  {
    assert IsExtensionSplit("VALENTINO 9000028669.pdf", "VALENTINO 9000028669", "pdf") by {
      assert "VALENTINO 9000028669.pdf" == "VALENTINO 9000028669" + "." + "pdf";
    }
    assert IsNumberSplit("VALENTINO 9000028669", "VALENTINO", " ", "9000028669") by {
      assert "VALENTINO 9000028669" == "VALENTINO" + " " + "9000028669";
    }
    TrimUnchanged("VALENTINO");
    LowerUnchanged("pdf");
    ParsesAs("VALENTINO 9000028669.pdf", "VALENTINO 9000028669", "pdf", "VALENTINO", " ", "9000028669");
  }

  lemma Case3()
    ensures CasePasses(TestCases[2])
  {
    var expected := Some(ParsedFilename("VALENTINO", "9000028669", "pdf"));
    assert TestCases[2].check == FilenameCheck("VALENTINO 9000028669.pdf", expected);
    Parses3();
    FilenameCasePasses(TestCases[2], "VALENTINO 9000028669.pdf", expected);
  }

  lemma Parses4()
    ensures ParseFilename("TOD'S 2409.pdf") == Some(ParsedFilename("TOD'S", "2409", "pdf"))
  {
    assert IsExtensionSplit("TOD'S 2409.pdf", "TOD'S 2409", "pdf") by {
      assert "TOD'S 2409.pdf" == "TOD'S 2409" + "." + "pdf";
    }
    assert IsNumberSplit("TOD'S 2409", "TOD'S", " ", "2409") by {
      assert "TOD'S 2409" == "TOD'S" + " " + "2409";
    }
    TrimUnchanged("TOD'S");
    LowerUnchanged("pdf");
    ParsesAs("TOD'S 2409.pdf", "TOD'S 2409", "pdf", "TOD'S", " ", "2409");
  }

  lemma Case4()
    ensures CasePasses(TestCases[3])
  {
    var expected := Some(ParsedFilename("TOD'S", "2409", "pdf"));
    assert TestCases[3].check == FilenameCheck("TOD'S 2409.pdf", expected);
    Parses4();
    FilenameCasePasses(TestCases[3], "TOD'S 2409.pdf", expected);
  }

  lemma Parses5()
    ensures ParseFilename("FORNITORE TEST 123.jpg") == Some(ParsedFilename("FORNITORE TEST", "123", "jpg"))
  {
    assert IsExtensionSplit("FORNITORE TEST 123.jpg", "FORNITORE TEST 123", "jpg") by {
      assert "FORNITORE TEST 123.jpg" == "FORNITORE TEST 123" + "." + "jpg";
    }
    assert IsNumberSplit("FORNITORE TEST 123", "FORNITORE TEST", " ", "123") by {
      assert "FORNITORE TEST 123" == "FORNITORE TEST" + " " + "123";
    }
    TrimUnchanged("FORNITORE TEST");
    LowerUnchanged("jpg");
    ParsesAs("FORNITORE TEST 123.jpg", "FORNITORE TEST 123", "jpg", "FORNITORE TEST", " ", "123");
  }

  lemma Case5()
    ensures CasePasses(TestCases[4])
  {
    var expected := Some(ParsedFilename("FORNITORE TEST", "123", "jpg"));
    assert TestCases[4].check == FilenameCheck("FORNITORE TEST 123.jpg", expected);
    Parses5();
    FilenameCasePasses(TestCases[4], "FORNITORE TEST 123.jpg", expected);
  }

  lemma Rejects6()
    ensures ParseFilename("DOCUMENTO SENZA NUMERO.pdf") == None
  {
    var f := "DOCUMENTO SENZA NUMERO.pdf";
    var name := "DOCUMENTO SENZA NUMERO";
    assert IsExtensionSplit(f, name, "pdf") by {
      assert f == name + "." + "pdf";
    }
    SplitExtensionExact(f, name, "pdf");
    assert !IsDigit(name[|name| - 1]);
    assert TrailingDigits(name) == 0;
  }

  lemma Case6()
    ensures CasePasses(TestCases[5])
  {
    assert TestCases[5].check == FilenameCheck("DOCUMENTO SENZA NUMERO.pdf", None);
    Rejects6();
    FilenameCasePasses(TestCases[5], "DOCUMENTO SENZA NUMERO.pdf", None);
  }

  lemma Rejects7()
    ensures ParseFilename("12345.pdf") == None
  {
    var f := "12345.pdf";
    assert IsExtensionSplit(f, "12345", "pdf") by {
      assert f == "12345" + "." + "pdf";
    }
    SplitExtensionExact(f, "12345", "pdf");
    TrailingDigitsOf("", "12345");
    assert "" + "12345" == "12345";
  }

  lemma Case7()
    ensures CasePasses(TestCases[6])
  {
    assert TestCases[6].check == FilenameCheck("12345.pdf", None);
    Rejects7();
    FilenameCasePasses(TestCases[6], "12345.pdf", None);
  }

  /** A digit text denotes the number it was formatted from. */
  lemma DigitsAre(s: string, n: nat)
    requires n < Pow10(|s|) && Digits(n, |s|) == s
    ensures AllDigits(s) && DigitsValue(s) == n
  {
    ValueOfDigits(n, |s|);
  }

  lemma Year2023()
    ensures AllDigits("2023") && DigitsValue("2023") == 2023
  {
    assert Pow10(4) == 10000;
    assert Digits(0, 0) == "";
    assert Digits(2, 1) == "2";
    assert Digits(20, 2) == "20";
    assert Digits(202, 3) == "202";
    assert Digits(2023, 4) == "2023";
    DigitsAre("2023", 2023);
  }

  /** The folder text `dd-mm-yyyy` has the folder shape and names the date it spells. */
  lemma DateFolderText(dd: string, mm: string, yyyy: string)
    requires |dd| == 2 && |mm| == 2 && |yyyy| == 4 && AllDigits(dd) && AllDigits(mm) && AllDigits(yyyy)
    ensures var f := dd + "-" + mm + "-" + yyyy;
            '%' !in f && IsDateFolderShape(f) && FolderDate(f) == Date(DigitsValue(yyyy), DigitsValue(mm), DigitsValue(dd))
  {
    var f := dd + "-" + mm + "-" + yyyy;
    assert f[..2] == dd && f[3..5] == mm && f[6..] == yyyy;
    assert forall k :: 0 <= k < |f| ==> IsDigit(f[k]) || f[k] == '-' by {
      forall k | 0 <= k < |f| ensures IsDigit(f[k]) || f[k] == '-' {
        if k < 2 { assert f[k] == dd[k]; }
        else if 2 < k < 5 { assert f[k] == mm[k - 3]; }
        else if k > 5 { assert f[k] == yyyy[k - 6]; }
      }
    }
  }

  /** The text `yyyy-mm-dd` has the ISO shape and its fields are the given digit texts. */
  lemma IsoText(yyyy: string, mm: string, dd: string)
    requires |dd| == 2 && |mm| == 2 && |yyyy| == 4 && AllDigits(dd) && AllDigits(mm) && AllDigits(yyyy)
    ensures var s := yyyy + "-" + mm + "-" + dd;
            IsIsoShape(s) && s[..4] == yyyy && s[5..7] == mm && s[8..] == dd
  {
    var s := yyyy + "-" + mm + "-" + dd;
    assert s[..4] == yyyy && s[5..7] == mm && s[8..] == dd;
  }

  lemma ParsesDate8()
    ensures ParseDate("01-08-2023") == Some(Date(2023, 8, 1))
  {
    Year2023();
    DigitsAre("08", 8);
    DigitsAre("01", 1);
    assert "01-08-2023" == "01" + "-" + "08" + "-" + "2023";
    DateFolderText("01", "08", "2023");
    ParseDateOfCalendarDate("01-08-2023");
  }

  lemma ParsesIso8()
    ensures ParseIsoDate("2023-08-01") == Some(Date(2023, 8, 1))
  {
    Year2023();
    DigitsAre("08", 8);
    DigitsAre("01", 1);
    assert "2023-08-01" == "2023" + "-" + "08" + "-" + "01";
    IsoText("2023", "08", "01");
    ParseIsoDateOfCalendarDate("2023-08-01");
  }

  /** `new Date("2023-02-30")` is the 2nd of March: the surplus days carry into the next month. */
  lemma ParsesIsoOverflow()
    ensures ParseIsoDate("2023-02-30") == Some(Date(2023, 3, 2))
  {
    Year2023();
    DigitsAre("02", 2);
    DigitsAre("30", 30);
    assert "2023-02-30" == "2023" + "-" + "02" + "-" + "30";
    IsoText("2023", "02", "30");
  }

  /** `new Date("2023-08")`, the reduced year-month form, is the 1st of August 2023. */
  lemma ParsesIsoYearMonth()
    ensures ParseIsoDate("2023-08") == Some(Date(2023, 8, 1))
  {
    Year2023();
    DigitsAre("08", 8);
    var s := "2023-08";
    assert s[..4] == "2023" && s[5..] == "08";
  }

  /** `new Date("2023")`, the reduced year form, is the 1st of January 2023. */
  lemma ParsesIsoYear()
    ensures ParseIsoDate("2023") == Some(Date(2023, 1, 1))
  {
    Year2023();
  }

  lemma OverflowFolderText()
    ensures var f := "31-04-2023";
            '%' !in f && IsDateFolderShape(f) && FolderDate(f) == Date(2023, 4, 31)
  {
    Year2023();
    DigitsAre("04", 4);
    DigitsAre("31", 31);
    assert "31-04-2023" == "31" + "-" + "04" + "-" + "2023";
    DateFolderText("31", "04", "2023");
  }

  /** The folder `31-04-2023` names no existing day and is read as the 1st of May 2023. */
  lemma ParsesDateOverflow()
    ensures !IsCalendarDate(FolderDate("31-04-2023"))
    ensures ParseDate("31-04-2023") == Some(Date(2023, 5, 1))
  {
    OverflowFolderText();
    IsoOfFolderFields("31-04-2023");
    var d := Date(2023, 4, 31);
    assert RollOver(d) == Date(2023, 5, 1);
  }

  /** So the date the importer records for that folder is not the reordered folder text. */
  lemma OverflowFolderNotReordered()
    ensures ParseDate("31-04-2023").Some? && FormatIsoDate(ParseDate("31-04-2023").value) != "2023-04-31"
  {
    ParsesDateOverflow();
    assert IsoOfFolder("31-04-2023") == "2023-04-31";
    ParseDateReorders("31-04-2023");
  }

  lemma Case8()
    ensures CasePasses(TestCases[7])
  {
    assert TestCases[7].check == DateCheck("01-08-2023", Some("2023-08-01"));
    ParsesDate8();
    ParsesIso8();
    DateCasePasses(TestCases[7], "01-08-2023", "2023-08-01", Date(2023, 8, 1));
  }

  lemma ParsesDate9()
    ensures ParseDate("09-01-2023") == Some(Date(2023, 1, 9))
  {
    Year2023();
    DigitsAre("01", 1);
    DigitsAre("09", 9);
    assert "09-01-2023" == "09" + "-" + "01" + "-" + "2023";
    DateFolderText("09", "01", "2023");
    ParseDateOfCalendarDate("09-01-2023");
  }

  lemma ParsesIso9()
    ensures ParseIsoDate("2023-01-09") == Some(Date(2023, 1, 9))
  {
    Year2023();
    DigitsAre("01", 1);
    DigitsAre("09", 9);
    assert "2023-01-09" == "2023" + "-" + "01" + "-" + "09";
    IsoText("2023", "01", "09");
    ParseIsoDateOfCalendarDate("2023-01-09");
  }

  lemma Case9()
    ensures CasePasses(TestCases[8])
  {
    assert TestCases[8].check == DateCheck("09-01-2023", Some("2023-01-09"));
    ParsesDate9();
    ParsesIso9();
    DateCasePasses(TestCases[8], "09-01-2023", "2023-01-09", Date(2023, 1, 9));
  }

  lemma Case10()
    ensures CasePasses(TestCases[9])
  {
    assert "%d-%m-%Y"[0] == '%';
  }

  lemma Case11()
    ensures CasePasses(TestCases[10])
  {
  }

  lemma Case12()
    ensures CasePasses(TestCases[11])
  {
    var f := "32-13-2023";
    assert f[3..5] == "13";
    DigitsAre("13", 13);
  }

  /** Every one of the twelve cases passes, so the runner exits with status 0. */
  lemma AllCasesPass()
    ensures forall i :: 0 <= i < |TestCases| ==> CasePasses(TestCases[i])
    ensures PassCount(TestCases) == |TestCases| == 12
  {
    forall i | 0 <= i < |TestCases| ensures CasePasses(TestCases[i]) {
      if i == 0 { Case1(); }
      else if i == 1 { Case2(); }
      else if i == 2 { Case3(); }
      else if i == 3 { Case4(); }
      else if i == 4 { Case5(); }
      else if i == 5 { Case6(); }
      else if i == 6 { Case7(); }
      else if i == 7 { Case8(); }
      else if i == 8 { Case9(); }
      else if i == 9 { Case10(); }
      else if i == 10 { Case11(); }
      else { Case12(); }
    }
    PassCountAll(TestCases);
  }
}
