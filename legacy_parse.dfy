/**
 * The metadata parsers of the legacy import script: a legacy archive path such as
 * `DDT/2023/GENNAIO/02-01-2023/ABC RICAMI 1894.pdf` yields the supplier, the
 * document number, the ISO date, the numeric year and the English month name,
 * or nothing when the path does not follow the archive layout.
 */
module LegacyImport {
  import opened Outcomes
  import opened Text
  import opened Calendar

  // ---------------------------------------------------------------------------
  // Month folders
  // ---------------------------------------------------------------------------

  const ItalianMonths: seq<string> := [
    "GENNAIO", "FEBBRAIO", "MARZO", "APRILE", "MAGGIO", "GIUGNO",
    "LUGLIO", "AGOSTO", "SETTEMBRE", "OTTOBRE", "NOVEMBRE", "DICEMBRE"
  ]

  /** Italian month folder name (upper case) to English month name. */
  const MonthMap: map<string, string> := map[
    "GENNAIO" := "January", "FEBBRAIO" := "February", "MARZO" := "March",
    "APRILE" := "April", "MAGGIO" := "May", "GIUGNO" := "June",
    "LUGLIO" := "July", "AGOSTO" := "August", "SETTEMBRE" := "September",
    "OTTOBRE" := "October", "NOVEMBRE" := "November", "DICEMBRE" := "December"
  ]

  /** The month map sends the i-th Italian month to the i-th English month, and has no other key. */
  lemma MonthMapTable()
    ensures forall i :: 0 <= i < 12 ==> ItalianMonths[i] in MonthMap && MonthMap[ItalianMonths[i]] == EnglishMonths[i]
    ensures forall k :: k in MonthMap ==> k in ItalianMonths
  {
  }

  /** A month folder is valid when its upper-cased name is one of the twelve Italian months. */
  predicate IsValidMonth(monthName: string)
    ensures IsValidMonth(monthName) <==> exists i :: 0 <= i < 12 && Upper(monthName) == ItalianMonths[i]
  {
    MonthMapTable();
    Upper(monthName) in MonthMap
  }

  /** The English name of a valid month folder; any other folder name is returned unchanged. */
  function NormalizeMonth(monthName: string): (r: string)
    ensures IsValidMonth(monthName) ==> r in EnglishMonths
    ensures !IsValidMonth(monthName) ==> r == monthName
  {
    MonthMapTable();
    var key := Upper(monthName);
    if key in MonthMap then MonthMap[key] else monthName
  }

  /** Month folders are recognised in any letter case, and each maps to its English counterpart. */
  lemma {:induction false} NormalizeMonthTranslates(monthName: string, i: nat)
    requires i < 12 && Upper(monthName) == ItalianMonths[i]
    ensures IsValidMonth(monthName) && IsValidMonth(Upper(monthName)) && IsValidMonth(Lower(monthName))
    ensures NormalizeMonth(monthName) == EnglishMonths[i]
  {
    MonthMapTable();
    UpperIgnoresCase(monthName);
  }

  // ---------------------------------------------------------------------------
  // File names: /^(.+?)\.([a-z]{3,4})$/i, then /^(.+?)\s+(\d+)$/
  // ---------------------------------------------------------------------------

  datatype ParsedFilename = ParsedFilename(supplier: string, docNumber: string, extension: string)

  /** `s` is `name.ext` with a non-empty single-line `name` and a 3- or 4-letter ASCII `ext`. */
  predicate IsExtensionSplit(s: string, name: string, ext: string) {
    s == name + "." + ext && |name| >= 1 && NoLineTerminator(name)
    && 3 <= |ext| <= 4 && AllAsciiLetters(ext)
  }

  /** The two groups of the extension pattern, or nothing when it does not match. */
  function SplitExtension(s: string): Option<(string, string)> {
    if |s| >= 5 && s[|s| - 4] == '.' && AllAsciiLetters(s[|s| - 3..]) && NoLineTerminator(s[..|s| - 4])
    then Some((s[..|s| - 4], s[|s| - 3..]))
    else if |s| >= 6 && s[|s| - 5] == '.' && AllAsciiLetters(s[|s| - 4..]) && NoLineTerminator(s[..|s| - 5])
    then Some((s[..|s| - 5], s[|s| - 4..]))
    else None
  }

  /** The extension pattern matches exactly the `name.ext` splits, and there is at most one. */
  lemma SplitExtensionExact(s: string, name: string, ext: string)
    ensures SplitExtension(s) == Some((name, ext)) <==> IsExtensionSplit(s, name, ext)
  {
    if IsExtensionSplit(s, name, ext) {
      assert s[..|name|] == name && s[|name| + 1..] == ext;
      if |ext| == 4 {
        assert s[|s| - 4] == ext[0];
      }
    }
    if SplitExtension(s) == Some((name, ext)) {
      if |s| >= 5 && s[|s| - 4] == '.' && AllAsciiLetters(s[|s| - 3..]) && NoLineTerminator(s[..|s| - 4]) {
        assert s == s[..|s| - 4] + "." + s[|s| - 3..];
      } else {
        assert s == s[..|s| - 5] + "." + s[|s| - 4..];
      }
    }
  }

  /** Length of the longest suffix of `s` made of digits. */
  function TrailingDigits(s: string): (n: nat)
    ensures n <= |s|
    ensures forall i :: |s| - n <= i < |s| ==> IsDigit(s[i])
    ensures n < |s| ==> !IsDigit(s[|s| - n - 1])
  {
    if |s| > 0 && IsDigit(s[|s| - 1]) then TrailingDigits(s[..|s| - 1]) + 1 else 0
  }

  /** Length of the longest suffix of `s` made of white space. */
  function TrailingSpaces(s: string): (n: nat)
    ensures n <= |s|
    ensures forall i :: |s| - n <= i < |s| ==> IsSpace(s[i])
    ensures n < |s| ==> !IsSpace(s[|s| - n - 1])
  {
    if |s| > 0 && IsSpace(s[|s| - 1]) then TrailingSpaces(s[..|s| - 1]) + 1 else 0
  }

  /** `name` is a non-empty prefix `p`, a white-space run `w` and a digit run `d`. */
  predicate IsNumberSplit(name: string, p: string, w: string, d: string) {
    name == p + w + d && |p| >= 1 && |w| >= 1 && AllSpace(w) && |d| >= 1 && AllDigits(d)
  }

  /**
   * The number pattern on the name without extension: the docNumber group is the
   * trailing digit run, and the lazy supplier group is the shortest non-empty
   * prefix that leaves a white-space run before it; the supplier is that group trimmed.
   */
  function ParseNumber(name: string): (r: Option<(string, string)>)
    ensures r.Some? ==> |r.value.1| >= 1 && AllDigits(r.value.1)
  {
    var d := TrailingDigits(name);
    var rest := name[..|name| - d];
    var w := TrailingSpaces(rest);
    if d == 0 || w == 0 || |rest| < 2 then None
    else
      var lazy := if w < |rest| then |rest| - w else 1;
      Some((Trim(rest[..lazy]), name[|name| - d..]))
  }

  /** A trailing digit run preceded by a non-digit is exactly what `TrailingDigits` measures. */
  lemma TrailingDigitsOf(x: string, d: string)
    requires AllDigits(d) && (|x| == 0 || !IsDigit(x[|x| - 1]))
    ensures TrailingDigits(x + d) == |d|
  {
    var s := x + d;
    var n := TrailingDigits(s);
    if |x| > 0 {
      assert s[|x| - 1] == x[|x| - 1];
    }
  }

  /** Every split of the name into prefix, white space and digits yields the same parse. */
  lemma ParseNumberComplete(name: string, p: string, w: string, d: string)
    requires IsNumberSplit(name, p, w, d)
    ensures ParseNumber(name) == Some((Trim(p), d))
  {
    assert name == (p + w) + d;
    TrailingDigitsOf(p + w, d);
    var rest := name[..|name| - |d|];
    assert rest == p + w;
    var t := TrailingSpaces(rest);
    var lazy := if t < |rest| then |rest| - t else 1;
    assert rest == rest[..lazy] + rest[lazy..];
    SpaceTail(rest, t, lazy);
    TrimAppendSpace(rest[..lazy], rest[lazy..]);
    TrimAppendSpace(p, w);
    assert name[|name| - |d|..] == d;
  }

  /** Any tail of a run of trailing spaces is spaces. */
  lemma SpaceTail(s: string, t: nat, k: nat)
    requires t <= |s| && AllSpace(s[|s| - t..]) && |s| - t <= k <= |s|
    ensures AllSpace(s[k..])
  {
    forall i | 0 <= i < |s| - k ensures IsSpace(s[k..][i]) {
      assert s[k..][i] == s[|s| - t..][i + k - (|s| - t)];
    }
  }

  /** Whatever the number pattern returns comes from such a split. */
  lemma ParseNumberSound(name: string)
    requires ParseNumber(name).Some?
    ensures exists p, w :: IsNumberSplit(name, p, w, ParseNumber(name).value.1)
                        && ParseNumber(name).value.0 == Trim(p)
  {
    var d := TrailingDigits(name);
    var rest := name[..|name| - d];
    var t := TrailingSpaces(rest);
    var lazy := if t < |rest| then |rest| - t else 1;
    var p, w := rest[..lazy], rest[lazy..];
    assert AllSpace(w) by {
      forall i | 0 <= i < |w| ensures IsSpace(w[i]) {
        assert w[i] == rest[|rest| - t..][i + lazy - (|rest| - t)];
      }
    }
    assert name == p + w + name[|name| - d..];
    assert IsNumberSplit(name, p, w, name[|name| - d..]);
  }

  /** `parseFilename`: supplier, document number and lower-cased extension, or nothing. */
  function ParseFilename(filename: string): (r: Option<ParsedFilename>)
    ensures r.Some? ==> 3 <= |r.value.extension| <= 4 && AllDigits(r.value.docNumber) && |r.value.docNumber| >= 1
  {
    match SplitExtension(filename)
    case None => None
    case Some((name, ext)) =>
      match ParseNumber(name)
      case None => None
      case Some((supplier, docNumber)) => Some(ParsedFilename(supplier, docNumber, Lower(ext)))
  }

  /**
   * A file name parses exactly when it is `prefix whitespace digits.ext`; the
   * document number is the digit run, the supplier the trimmed prefix, the
   * extension the suffix in lower case.
   */
  lemma ParseFilenameComplete(filename: string, name: string, ext: string, p: string, w: string, d: string)
    requires IsExtensionSplit(filename, name, ext) && IsNumberSplit(name, p, w, d)
    ensures ParseFilename(filename) == Some(ParsedFilename(Trim(p), d, Lower(ext)))
  {
    SplitExtensionExact(filename, name, ext);
    ParseNumberComplete(name, p, w, d);
  }

  /** Conversely, a successful parse always comes from such a file name. */
  lemma ParseFilenameSound(filename: string)
    requires ParseFilename(filename).Some?
    ensures exists name, ext, p, w ::
      var f := ParseFilename(filename).value;
      IsExtensionSplit(filename, name, ext) && IsNumberSplit(name, p, w, f.docNumber)
      && f.supplier == Trim(p) && f.extension == Lower(ext)
  {
    var (name, ext) := SplitExtension(filename).value;
    SplitExtensionExact(filename, name, ext);
    ParseNumberSound(name);
    var p, w :| IsNumberSplit(name, p, w, ParseNumber(name).value.1) && ParseNumber(name).value.0 == Trim(p);
    var f := ParseFilename(filename).value;
    assert IsExtensionSplit(filename, name, ext) && IsNumberSplit(name, p, w, f.docNumber)
      && f.supplier == Trim(p) && f.extension == Lower(ext);
  }

  // ---------------------------------------------------------------------------
  // Date folders: DD-MM-YYYY
  // ---------------------------------------------------------------------------

  /** The shape `\d{2}-\d{2}-\d{4}`. */
  predicate IsDateFolderShape(f: string) {
    |f| == 10 && AllDigits(f[..2]) && f[2] == '-' && AllDigits(f[3..5]) && f[5] == '-' && AllDigits(f[6..])
  }

  /** The date a folder of the right shape names. */
  function FolderDate(f: string): Date
    requires IsDateFolderShape(f)
  {
    Date(DigitsValue(f[6..]), DigitsValue(f[3..5]), DigitsValue(f[..2]))
  }

  /** The folder's fields rewritten as `YYYY-MM-DD`, the text `parseDate` gives to `new Date`. */
  function IsoOfFolder(f: string): string
    requires IsDateFolderShape(f)
  {
    f[6..] + "-" + f[3..5] + "-" + f[..2]
  }

  lemma IsoOfFolderFields(f: string)
    requires IsDateFolderShape(f)
    ensures IsIsoShape(IsoOfFolder(f)) && IsoFields(IsoOfFolder(f)) == FolderDate(f)
  {
    var t := IsoOfFolder(f);
    assert t[..4] == f[6..] && t[5..7] == f[3..5] && t[8..] == f[..2];
  }

  /**
   * `parseDate`: the date `new Date` makes of a `DD-MM-YYYY` folder's fields, or
   * nothing; a day past the month's end carries into the next month.
   */
  function ParseDate(folderName: string): (r: Option<Date>)
    ensures '%' in folderName ==> r.None?
    ensures r.Some? <==> IsDateFolderShape(folderName) && InDateRange(FolderDate(folderName))
    ensures r.Some? ==> IsCalendarDate(r.value) && r.value.year < 10000
  {
    if '%' in folderName then
      assert !IsDateFolderShape(folderName) by {
        var k :| 0 <= k < |folderName| && folderName[k] == '%';
        if |folderName| == 10 && folderName[2] == '-' && folderName[5] == '-' {
          if k < 2 { assert folderName[..2][k] == '%'; }
          else if 2 < k < 5 { assert folderName[3..5][k - 3] == '%'; }
          else if k > 5 { assert folderName[6..][k - 6] == '%'; }
        }
      }
      None
    else if !IsDateFolderShape(folderName) then None
    else
      IsoOfFolderFields(folderName);
      ParseIsoDate(IsoOfFolder(folderName))
  }

  /**
   * The ISO text of a parsed folder date is the folder's day, month and year
   * reordered exactly when the folder names a day that exists.
   */
  lemma ParseDateReorders(folderName: string)
    requires ParseDate(folderName).Some?
    ensures FormatIsoDate(ParseDate(folderName).value) == IsoOfFolder(folderName)
            <==> IsCalendarDate(FolderDate(folderName))
  {
    IsoOfFolderFields(folderName);
    IsoTextRoundTrip(IsoOfFolder(folderName));
  }

  /** A folder naming a day that exists parses to exactly that day. */
  lemma ParseDateOfCalendarDate(folderName: string)
    requires IsDateFolderShape(folderName) && IsCalendarDate(FolderDate(folderName))
    ensures ParseDate(folderName) == Some(FolderDate(folderName))
  {
    IsoOfFolderFields(folderName);
    ParseIsoDateOfCalendarDate(IsoOfFolder(folderName));
  }

  /**
   * A parsed folder date keeps the folder's year and its day of the year, so
   * `31-04-2023` stands for the first of May.
   */
  lemma ParseDateKeepsDayOfYear(folderName: string)
    requires ParseDate(folderName).Some?
    ensures ParseDate(folderName).value.year == FolderDate(folderName).year
    ensures DayOfYear(ParseDate(folderName).value) == DayOfYear(FolderDate(folderName))
  {
    IsoOfFolderFields(folderName);
    ParseIsoDateKeepsDayOfYear(IsoOfFolder(folderName));
  }

  // ---------------------------------------------------------------------------
  // Whole paths
  // ---------------------------------------------------------------------------

  datatype Metadata = Metadata(
    supplier: string, docNumber: string, date: string, filePath: string,
    filename: string, year: nat, month: string)

  /** The folders and file name a path is read from. */
  datatype Layout = Layout(year: string, month: string, dateFolder: string, filename: string)

  /**
   * The path with `\` written as `/`, the first occurrence of the (equally
   * rewritten) source path removed, and then one leading `/` removed.
   */
  function RelativePath(filePath: string, sourcePath: string): string {
    var rel := RemoveFirst(BackslashToSlash(filePath), BackslashToSlash(sourcePath));
    if |rel| > 0 && rel[0] == '/' then rel[1..] else rel
  }

  /**
   * Which segments hold the year, month, date and file name: at least four
   * segments, or at least five when the first is `DDT` in any case, in which
   * case everything shifts by one; the file name is always the last segment.
   */
  function PathLayout(parts: seq<string>): (r: Option<Layout>)
    requires |parts| >= 1
    ensures r.Some? ==> r.value.filename == parts[|parts| - 1]
    ensures r.Some? <==> |parts| >= 4 && (Upper(parts[0]) == "DDT" ==> |parts| >= 5)
  {
    if |parts| < 4 then None
    else if Upper(parts[0]) == "DDT" then
      if |parts| < 5 then None else Some(Layout(parts[1], parts[2], parts[3], parts[|parts| - 1]))
    else Some(Layout(parts[0], parts[1], parts[2], parts[|parts| - 1]))
  }

  predicate IsYearFolder(y: string) { |y| == 4 && AllDigits(y) }

  /** `extractMetadata`: the document metadata a legacy archive path encodes, or nothing. */
  function ExtractMetadata(filePath: string, sourcePath: string): Option<Metadata> {
    var parts := Split(RelativePath(filePath, sourcePath), '/');
    match PathLayout(parts)
    case None => None
    case Some(l) =>
      if !IsYearFolder(l.year) || !IsValidMonth(l.month) then None
      else
        match ParseDate(l.dateFolder)
        case None => None
        case Some(d) =>
          match ParseFilename(l.filename)
          case None => None
          case Some(f) =>
            Some(Metadata(f.supplier, f.docNumber, FormatIsoDate(d), filePath, l.filename,
                          DigitsValue(l.year), NormalizeMonth(l.month)))
  }

  /**
   * Extracted metadata keeps the path, names an English month, carries a ten-character
   * date and a file name with neither kind of separator.
   */
  lemma ExtractMetadataFields(filePath: string, sourcePath: string)
    ensures var r := ExtractMetadata(filePath, sourcePath);
            r.Some? ==> r.value.filePath == filePath && r.value.month in EnglishMonths
                        && r.value.year < 10000 && |r.value.date| == 10
                        && '/' !in r.value.filename && '\\' !in r.value.filename
  {
    var parts := Split(RelativePath(filePath, sourcePath), '/');
    if ExtractMetadata(filePath, sourcePath).Some? {
      RelativePathHasNoBackslash(filePath, sourcePath);
      LastSegmentHasNoBackslash(RelativePath(filePath, sourcePath), parts);
    }
  }

  lemma RelativePathHasNoBackslash(filePath: string, sourcePath: string)
    ensures '\\' !in RelativePath(filePath, sourcePath)
  {
    var norm := BackslashToSlash(filePath);
    var rel := RemoveFirst(norm, BackslashToSlash(sourcePath));
    assert '\\' !in rel by {
      match IndexOf(norm, BackslashToSlash(sourcePath))
      case None =>
      case Some(i) =>
        assert forall c :: c in norm[..i] + norm[i + |BackslashToSlash(sourcePath)|..] ==> c in norm;
    }
  }

  lemma LastSegmentHasNoBackslash(rel: string, parts: seq<string>)
    requires parts == Split(rel, '/') && '\\' !in rel
    ensures '\\' !in parts[|parts| - 1]
    ensures PathLayout(parts).Some? ==> '\\' !in PathLayout(parts).value.filename
  {
    SplitKeepsChars(rel, '/', '\\');
  }

  /** A character absent from the string is absent from every part of its split. */
  lemma {:induction false} SplitKeepsChars(s: string, sep: char, c: char)
    requires c !in s
    ensures forall k :: 0 <= k < |Split(s, sep)| ==> c !in Split(s, sep)[k]
  {
    if |s| > 0 {
      assert c !in s[1..] by { assert forall i :: 0 <= i < |s| - 1 ==> s[1..][i] == s[i + 1]; }
      SplitKeepsChars(s[1..], sep, c);
    }
  }

  /**
   * A path yields metadata exactly when its layout is found, the year folder is
   * four digits, the month folder is valid and both the date folder and the file
   * name parse; the result then carries the parsed supplier and number, the
   * parsed folder date (the reordered folder text when that day exists), the
   * numeric year folder (not compared with the date folder's year) and the
   * English month.
   */
  lemma ExtractMetadataExact(filePath: string, sourcePath: string)
    ensures var parts := Split(RelativePath(filePath, sourcePath), '/');
            var l := PathLayout(parts);
            ExtractMetadata(filePath, sourcePath).Some? <==>
              (l.Some? && IsYearFolder(l.value.year) && IsValidMonth(l.value.month)
               && ParseDate(l.value.dateFolder).Some? && ParseFilename(l.value.filename).Some?)
    ensures ExtractMetadata(filePath, sourcePath).Some? ==>
            var l := PathLayout(Split(RelativePath(filePath, sourcePath), '/')).value;
            var m := ExtractMetadata(filePath, sourcePath).value;
            var f := ParseFilename(l.filename).value;
            && m.supplier == f.supplier && m.docNumber == f.docNumber
            && m.date == FormatIsoDate(ParseDate(l.dateFolder).value)
            && (IsCalendarDate(FolderDate(l.dateFolder)) ==> m.date == IsoOfFolder(l.dateFolder))
            && m.year == DigitsValue(l.year) && m.month == NormalizeMonth(l.month)
            && m.filename == l.filename
  {
    var parts := Split(RelativePath(filePath, sourcePath), '/');
    var l := PathLayout(parts);
    if ExtractMetadata(filePath, sourcePath).Some? {
      ParseDateReorders(l.value.dateFolder);
    }
  }
}
