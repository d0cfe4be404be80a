/**
 * The backend's documents service: creating one document or a batch of them
 * (object storage upload, database row, search-index entry), the filtered and
 * paginated listing, lookup, partial update and removal.
 *
 * The three collaborators are modelled by the state they keep (the database
 * rows, the stored object keys and the search index) and by what each call
 * does: every call that may fail is given its outcome as a parameter.
 */
module Documents {
  import opened Outcomes
  import opened Text
  import opened Calendar

  // ---------------------------------------------------------------------------
  // Entities
  // ---------------------------------------------------------------------------

  type DocId = nat

  /** A database row of the `document` table. */
  datatype Document = Document(
    id: DocId, filename: string, minioKey: string, supplier: string, docNumber: string,
    date: Date, month: string, year: nat, fileSize: nat, fileExtension: string)

  /** An uploaded file: its original name and size. */
  datatype File = File(originalname: string, size: nat)

  /** Where the object store put a file, as `uploadDocument` reports it. */
  datatype StoredObject = StoredObject(filePath: string, fileName: string)

  /** A metadata entry of a bulk upload; an absent field is `None`. */
  datatype Meta = Meta(supplier: Option<string>, docNumber: Option<string>, date: Option<string>)

  /** What each collaborator call does for one item: the upload's result, and the errors, if any, of the database create and the indexing. */
  datatype Calls = Calls(upload: Result<StoredObject, string>, createError: Option<string>, indexError: Option<string>)

  datatype ItemError = ItemError(filename: string, error: string)

  const MonthNames := EnglishMonths

  const MissingMetadataMessage: string := "Missing required metadata (date, supplier, or docNumber)"
  const InvalidDateMessage: string := "Invalid date format"
  const UploadFailedMessage: string := "Upload failed"
  const NoFilesMessage: string := "No files provided"
  const CountMismatchMessage: string := "Metadata count must match files count"
  const FileRequiredMessage: string := "File is required"
  const NotFoundMessage: string := "Document not found"
  const DeletedMessage: string := "Document deleted successfully"

  /** JavaScript truthiness of an optional string field: present and not empty. */
  predicate Truthy(s: Option<string>) { s.Some? && s.value != "" }

  /** `x || ''`. */
  function OrEmpty(s: Option<string>): (r: string)
    ensures Truthy(s) ==> r == s.value
    ensures !Truthy(s) ==> r == ""
  {
    if s.Some? then s.value else ""
  }

  /** `error.message || 'Upload failed'`. */
  function ErrorMessage(message: string): (r: string)
    ensures r != ""
    ensures message != "" ==> r == message
  {
    if message == "" then UploadFailedMessage else message
  }

  /**
   * `originalname.split('.').pop() || ''`: the text after the last dot, or the whole
   * name when it has none.
   */
  function FileExtension(originalname: string): (r: string)
    ensures '.' !in r
    ensures |r| <= |originalname| && r == originalname[|originalname| - |r|..]
    ensures |r| < |originalname| ==> originalname[|originalname| - |r| - 1] == '.'
    ensures '.' !in originalname ==> r == originalname
  {
    LastPart(originalname, '.')
  }

  /** The extension is what follows the last dot, in the case it was written in. */
  lemma FileExtensionExamples()
    ensures FileExtension("fattura.pdf") == "pdf"
    ensures FileExtension("scan.2023.JPG") == "JPG"
  {
    assert Join(["fattura", "pdf"], '.') == "fattura.pdf";
    SplitJoin(["fattura", "pdf"], '.');
    assert Join(["scan", "2023", "JPG"], '.') == "scan.2023.JPG" by {
      assert Join(["scan", "2023", "JPG"][1..], '.') == "2023.JPG";
    }
    SplitJoin(["scan", "2023", "JPG"], '.');
  }

  /** A row's month name and year agree with its date. */
  predicate DateFieldsAgree(d: Document) {
    IsCalendarDate(d.date) && d.month == MonthName(d.date) && d.year == d.date.year
  }

  /** The row `create` writes for a file stored at `obj`. */
  function NewRow(id: DocId, obj: StoredObject, file: File, supplier: string, docNumber: string, date: Date): (d: Document)
    requires IsCalendarDate(date)
    ensures DateFieldsAgree(d) && d.id == id && d.supplier == supplier && d.docNumber == docNumber && d.date == date
    ensures d.minioKey == obj.filePath && d.filename == obj.fileName && d.fileSize == file.size
  {
    Document(id, obj.fileName, obj.filePath, supplier, docNumber, date, MonthNames[date.month - 1], date.year,
             file.size, FileExtension(file.originalname))
  }

  // ---------------------------------------------------------------------------
  // The collaborators' state
  // ---------------------------------------------------------------------------

  /** The database rows by id, the object keys in the store, the search index by id, and the next free id. */
  datatype Store = Store(rows: map<DocId, Document>, objects: set<string>, index: map<DocId, Document>, nextId: DocId)

  /** Every row is filed under its own id, below the next free id, with month and year agreeing with its date. */
  predicate WellFormed(s: Store) {
    RowsWellFormed(s.rows, s.nextId)
  }

  predicate RowsWellFormed(rows: map<DocId, Document>, nextId: DocId) {
    forall id :: id in rows ==> rows[id].id == id && id < nextId && DateFieldsAgree(rows[id])
  }

  datatype Entry = Stored(doc: Document) | Rejected(err: ItemError)

  /**
   * One pass of the `bulkCreate` loop: validation, then upload, database create and
   * indexing, each of which may fail; a failure is recorded against the item's file name.
   */
  function BulkItem(s: Store, file: File, meta: Meta, calls: Calls): (Store, Entry)
  {
    if !Truthy(meta.date) || !Truthy(meta.supplier) || !Truthy(meta.docNumber) then
      (s, Rejected(ItemError(file.originalname, MissingMetadataMessage)))
    else
      match ParseIsoDate(meta.date.value)
      case None => (s, Rejected(ItemError(file.originalname, InvalidDateMessage)))
      case Some(date) =>
        match calls.upload
        case Err(m) => (s, Rejected(ItemError(file.originalname, ErrorMessage(m))))
        case Ok(obj) =>
          var s1 := s.(objects := s.objects + {obj.filePath});
          match calls.createError
          case Some(m) => (s1, Rejected(ItemError(file.originalname, ErrorMessage(m))))
          case None =>
            var doc := NewRow(s.nextId, obj, file, meta.supplier.value, meta.docNumber.value, date);
            var s2 := s1.(rows := s1.rows[doc.id := doc], nextId := s1.nextId + 1);
            match calls.indexError
            case Some(m) => (s2, Rejected(ItemError(file.originalname, ErrorMessage(m))))
            case None => (s2.(index := s2.index[doc.id := doc]), Stored(doc))
  }

  /** The store after the first `n` items, and one entry per item in file order. */
  function BulkRun(s: Store, files: seq<File>, metadata: seq<Meta>, calls: nat -> Calls, n: nat): (r: (Store, seq<Entry>))
    requires n <= |files| == |metadata|
    ensures |r.1| == n
  {
    if n == 0 then (s, [])
    else
      var prev := BulkRun(s, files, metadata, calls, n - 1);
      var step := BulkItem(prev.0, files[n - 1], metadata[n - 1], calls(n - 1));
      (step.0, prev.1 + [step.1])
  }

  function Results(entries: seq<Entry>): seq<Document> {
    if |entries| == 0 then []
    else Results(entries[..|entries| - 1])
         + (if entries[|entries| - 1].Stored? then [entries[|entries| - 1].doc] else [])
  }

  function Errors(entries: seq<Entry>): seq<ItemError> {
    if |entries| == 0 then []
    else Errors(entries[..|entries| - 1])
         + (if entries[|entries| - 1].Rejected? then [entries[|entries| - 1].err] else [])
  }

  /** Every entry is a result or an error, so `success + failed` is the number of items. */
  lemma {:induction false} ResultsAndErrorsPartition(entries: seq<Entry>)
    ensures |Results(entries)| + |Errors(entries)| == |entries|
  {
    if |entries| > 0 {
      ResultsAndErrorsPartition(entries[..|entries| - 1]);
    }
  }

  /** The run over one more item is the run so far followed by that item's pass. */
  lemma BulkRunStep(s: Store, files: seq<File>, metadata: seq<Meta>, calls: nat -> Calls, n: nat)
    requires n < |files| == |metadata|
    ensures var prev := BulkRun(s, files, metadata, calls, n);
            var step := BulkItem(prev.0, files[n], metadata[n], calls(n));
            BulkRun(s, files, metadata, calls, n + 1) == (step.0, prev.1 + [step.1])
  {
  }

  /** Item `i`'s entry is what its own pass produced from the store the earlier items left. */
  lemma {:induction false} BulkRunEntry(s: Store, files: seq<File>, metadata: seq<Meta>, calls: nat -> Calls, n: nat, i: nat)
    requires i < n <= |files| == |metadata|
    ensures var before := BulkRun(s, files, metadata, calls, i).0;
            BulkRun(s, files, metadata, calls, n).1[i] == BulkItem(before, files[i], metadata[i], calls(i)).1
    decreases n
  {
    var prev := BulkRun(s, files, metadata, calls, n - 1);
    var last := BulkItem(prev.0, files[n - 1], metadata[n - 1], calls(n - 1)).1;
    assert BulkRun(s, files, metadata, calls, n).1 == prev.1 + [last];
    if i < n - 1 {
      BulkRunEntry(s, files, metadata, calls, n - 1, i);
      assert (prev.1 + [last])[i] == prev.1[i];
    }
  }

  /** An item that ends up among the errors is reported under its own file's name. */
  lemma RejectedEntryNamesItsFile(s: Store, files: seq<File>, metadata: seq<Meta>, calls: nat -> Calls, i: nat)
    requires i < |files| == |metadata|
    ensures var e := BulkRun(s, files, metadata, calls, |files|).1[i];
            e.Rejected? ==> e.err.filename == files[i].originalname
  {
    BulkRunEntry(s, files, metadata, calls, |files|, i);
    BulkItemStores(BulkRun(s, files, metadata, calls, i).0, files[i], metadata[i], calls(i));
  }

  /** The store stays well formed through the whole batch. */
  lemma {:induction false} BulkRunWellFormed(s: Store, files: seq<File>, metadata: seq<Meta>, calls: nat -> Calls, n: nat)
    requires n <= |files| == |metadata| && WellFormed(s)
    ensures WellFormed(BulkRun(s, files, metadata, calls, n).0)
  {
    if n > 0 {
      BulkRunWellFormed(s, files, metadata, calls, n - 1);
      BulkItemWellFormed(BulkRun(s, files, metadata, calls, n - 1).0, files[n - 1], metadata[n - 1], calls(n - 1));
    }
  }

  /** One item keeps the store well formed: a new row goes under the next id, with matching month and year. */
  lemma BulkItemWellFormed(s: Store, file: File, meta: Meta, calls: Calls)
    requires WellFormed(s)
    ensures WellFormed(BulkItem(s, file, meta, calls).0)
  {
    if Truthy(meta.date) && Truthy(meta.supplier) && Truthy(meta.docNumber) && ParseIsoDate(meta.date.value).Some?
       && calls.upload.Ok? && calls.createError.None? {
      var doc := NewRow(s.nextId, calls.upload.value, file, meta.supplier.value, meta.docNumber.value,
                        ParseIsoDate(meta.date.value).value);
      AddRowWellFormed(s, doc);
    }
  }

  /**
   * An item is stored exactly when its metadata is complete, its date parses and all three
   * collaborators succeed; what is stored is the new row under the next id.
   */
  lemma BulkItemStores(s: Store, file: File, meta: Meta, calls: Calls)
    ensures var r := BulkItem(s, file, meta, calls);
            r.1.Rejected? ==> r.1.err.filename == file.originalname
    ensures var r := BulkItem(s, file, meta, calls);
            r.1.Stored? ==> r.1.doc.id == s.nextId && r.1.doc.id in r.0.rows && r.0.rows[r.1.doc.id] == r.1.doc
    ensures var r := BulkItem(s, file, meta, calls);
            r.1.Stored? <==>
              Truthy(meta.date) && Truthy(meta.supplier) && Truthy(meta.docNumber) && ParseIsoDate(meta.date.value).Some?
              && calls.upload.Ok? && calls.createError.None? && calls.indexError.None?
    ensures var r := BulkItem(s, file, meta, calls);
            r.1.Stored? ==>
              && Truthy(meta.date) && Truthy(meta.supplier) && Truthy(meta.docNumber) && ParseIsoDate(meta.date.value).Some?
              && calls.upload.Ok?
              && r.1.doc == NewRow(s.nextId, calls.upload.value, file, meta.supplier.value, meta.docNumber.value,
                                   ParseIsoDate(meta.date.value).value)
  {
  }

  /**
   * An item without a date, supplier or document number, or with a date that is not a
   * date, is reported with its file name and the fixed message, and nothing is stored for it.
   */
  lemma InvalidItemTouchesNothing(s: Store, file: File, meta: Meta, calls: Calls)
    requires !Truthy(meta.date) || !Truthy(meta.supplier) || !Truthy(meta.docNumber)
             || ParseIsoDate(meta.date.value).None?
    ensures var r := BulkItem(s, file, meta, calls);
            r.0 == s && r.1.Rejected?
            && r.1.err.error == (if !Truthy(meta.date) || !Truthy(meta.supplier) || !Truthy(meta.docNumber)
                                 then MissingMetadataMessage else InvalidDateMessage)
  {
  }

  /**
   * An item whose indexing fails is reported as an error although its file is stored
   * and its row is in the database.
   */
  lemma IndexFailureKeepsRow(s: Store, file: File, meta: Meta, calls: Calls)
    requires Truthy(meta.date) && Truthy(meta.supplier) && Truthy(meta.docNumber)
    requires ParseIsoDate(meta.date.value).Some? && calls.upload.Ok? && calls.createError.None?
    requires calls.indexError.Some?
    ensures var r := BulkItem(s, file, meta, calls);
            r.1 == Rejected(ItemError(file.originalname, ErrorMessage(calls.indexError.value)))
            && s.nextId in r.0.rows && r.0.index == s.index
            && calls.upload.value.filePath in r.0.objects
  {
  }

  /**
   * `create` on the collaborators' state: a missing file, an unparsable date or a failed
   * upload leaves everything as it was; otherwise the object is stored, then the row is
   * written (supplier and number default to empty), then indexed, and a failure of
   * either later step keeps what was written before it.
   */
  function CreateStep(s: Store, supplier: Option<string>, docNumber: Option<string>, date: string, file: Option<File>,
                      calls: Calls): (r: (Store, Result<Document, string>))
  {
    if file.None? then (s, Err(FileRequiredMessage))
    else
      match ParseIsoDate(date)
      case None => (s, Err(InvalidDateMessage))
      case Some(d) =>
        match calls.upload
        case Err(m) => (s, Err(m))
        case Ok(obj) => CreateWrite(s, obj, file.value, OrEmpty(supplier), OrEmpty(docNumber), d, calls)
  }

  /** The writes of `create` once the file is stored at `obj`: the row, then the index entry. */
  function CreateWrite(s: Store, obj: StoredObject, file: File, supplier: string, docNumber: string, date: Date,
                       calls: Calls): (Store, Result<Document, string>)
    requires IsCalendarDate(date)
  {
    var s1 := s.(objects := s.objects + {obj.filePath});
    match calls.createError
    case Some(m) => (s1, Err(m))
    case None =>
      var doc := NewRow(s.nextId, obj, file, supplier, docNumber, date);
      var s2 := s1.(rows := s1.rows[doc.id := doc], nextId := s1.nextId + 1);
      match calls.indexError
      case Some(m) => (s2, Err(m))
      case None => (s2.(index := s2.index[doc.id := doc]), Ok(doc))
  }

  /** `create` keeps the store well formed: a new row goes under the next id, with matching month and year. */
  lemma CreateStepWellFormed(s: Store, supplier: Option<string>, docNumber: Option<string>, date: string,
                             file: Option<File>, calls: Calls)
    requires WellFormed(s)
    ensures WellFormed(CreateStep(s, supplier, docNumber, date, file, calls).0)
  {
    var r := CreateStep(s, supplier, docNumber, date, file, calls);
    if file.Some? && ParseIsoDate(date).Some? && calls.upload.Ok? {
      var d := ParseIsoDate(date).value;
      assert r == CreateWrite(s, calls.upload.value, file.value, OrEmpty(supplier), OrEmpty(docNumber), d, calls);
      CreateWriteWellFormed(s, calls.upload.value, file.value, OrEmpty(supplier), OrEmpty(docNumber), d, calls);
    } else {
      assert r.0 == s;
    }
  }

  lemma CreateWriteWellFormed(s: Store, obj: StoredObject, file: File, supplier: string, docNumber: string, date: Date,
                              calls: Calls)
    requires WellFormed(s) && IsCalendarDate(date)
    ensures WellFormed(CreateWrite(s, obj, file, supplier, docNumber, date, calls).0)
  {
    if calls.createError.None? {
      AddRowWellFormed(s, NewRow(s.nextId, obj, file, supplier, docNumber, date));
    }
  }

  /** A row written under the next id, with matching month and year, keeps the store well formed. */
  lemma AddRowWellFormed(s: Store, doc: Document)
    requires WellFormed(s) && doc.id == s.nextId && DateFieldsAgree(doc)
    ensures RowsWellFormed(s.rows[doc.id := doc], s.nextId + 1)
  {
  }

  /**
   * What `create` leaves behind in each case: the refusals and a failed upload change
   * nothing; a failed database write keeps only the stored object; a failed indexing
   * keeps the object and the row but leaves the index alone; success adds all three.
   */
  lemma CreateOutcomes(s: Store, supplier: Option<string>, docNumber: Option<string>, date: string, file: Option<File>,
                       calls: Calls)
    ensures var r := CreateStep(s, supplier, docNumber, date, file, calls);
            && (file.None? ==> r == (s, Err(FileRequiredMessage)))
            && (file.Some? && ParseIsoDate(date).None? ==> r == (s, Err(InvalidDateMessage)))
            && (file.Some? && ParseIsoDate(date).Some? && calls.upload.Err? ==> r == (s, Err(calls.upload.error)))
    ensures file.Some? && ParseIsoDate(date).Some? && calls.upload.Ok? ==>
              var r := CreateStep(s, supplier, docNumber, date, file, calls);
              var doc := NewRow(s.nextId, calls.upload.value, file.value, OrEmpty(supplier), OrEmpty(docNumber),
                                ParseIsoDate(date).value);
              && r.0.objects == s.objects + {calls.upload.value.filePath}
              && (calls.createError.Some? ==>
                    r.1 == Err(calls.createError.value) && r.0.rows == s.rows && r.0.index == s.index && r.0.nextId == s.nextId)
              && (calls.createError.None? ==>
                    r.0.rows == s.rows[doc.id := doc] && r.0.nextId == s.nextId + 1
                    && (calls.indexError.Some? ==> r.1 == Err(calls.indexError.value) && r.0.index == s.index)
                    && (calls.indexError.None? ==> r.1 == Ok(doc) && r.0.index == s.index[doc.id := doc]))
    ensures var r := CreateStep(s, supplier, docNumber, date, file, calls);
            r.1.Ok? ==> && r.1.value.id == s.nextId
                        && r.1.value.supplier == OrEmpty(supplier) && r.1.value.docNumber == OrEmpty(docNumber)
                        && Some(r.1.value.date) == ParseIsoDate(date) && DateFieldsAgree(r.1.value)
  {
    if file.Some? && ParseIsoDate(date).Some? && calls.upload.Ok? {
      var d := ParseIsoDate(date).value;
      assert CreateStep(s, supplier, docNumber, date, file, calls)
          == CreateWrite(s, calls.upload.value, file.value, OrEmpty(supplier), OrEmpty(docNumber), d, calls);
      CreateWriteOutcomes(s, calls.upload.value, file.value, OrEmpty(supplier), OrEmpty(docNumber), d, calls);
    }
  }

  /** The writes once the file is stored: each later failure keeps the earlier writes and skips the rest. */
  lemma CreateWriteOutcomes(s: Store, obj: StoredObject, file: File, supplier: string, docNumber: string, date: Date,
                            calls: Calls)
    requires IsCalendarDate(date)
    ensures var r := CreateWrite(s, obj, file, supplier, docNumber, date, calls);
            var doc := NewRow(s.nextId, obj, file, supplier, docNumber, date);
            && r.0.objects == s.objects + {obj.filePath}
            && (calls.createError.Some? ==>
                  r.1 == Err(calls.createError.value) && r.0.rows == s.rows && r.0.index == s.index && r.0.nextId == s.nextId)
            && (calls.createError.None? ==>
                  r.0.rows == s.rows[doc.id := doc] && r.0.nextId == s.nextId + 1
                  && (calls.indexError.Some? ==> r.1 == Err(calls.indexError.value) && r.0.index == s.index)
                  && (calls.indexError.None? ==> r.1 == Ok(doc) && r.0.index == s.index[doc.id := doc]))
  {
  }

  datatype BulkSummary = BulkSummary(success: nat, failed: nat, results: seq<Document>, errors: seq<ItemError>)

  // ---------------------------------------------------------------------------
  // Listing: pagination and filters
  // ---------------------------------------------------------------------------

  /** The listing query; an absent field is `None`. */
  datatype Query = Query(
    page: Option<nat>, limit: Option<nat>, supplier: Option<string>, docNumber: Option<string>,
    date: Option<string>, month: Option<string>, year: Option<nat>)

  /** `query.page || 1`. */
  function PageOf(q: Query): (p: nat)
    ensures p >= 1
    ensures q.page.Some? && q.page.value != 0 ==> p == q.page.value
    ensures q.page.None? || q.page.value == 0 ==> p == 1
  {
    if q.page.Some? && q.page.value != 0 then q.page.value else 1
  }

  /** `query.limit || 20`. */
  function LimitOf(q: Query): (l: nat)
    ensures l >= 1
    ensures q.limit.Some? && q.limit.value != 0 ==> l == q.limit.value
    ensures q.limit.None? || q.limit.value == 0 ==> l == 20
  {
    if q.limit.Some? && q.limit.value != 0 then q.limit.value else 20
  }

  /** `Math.ceil(total / limit)` for a positive limit. */
  function CeilDiv(total: nat, limit: nat): (r: nat)
    requires limit >= 1
    ensures r * limit >= total && (r == 0 || (r - 1) * limit < total)
  {
    (total + limit - 1) / limit
  }

  /** The `where` object: each key only when its query field is truthy. */
  datatype Where = Where(
    supplier: Option<string>, docNumber: Option<string>, date: Option<Option<Date>>,
    month: Option<string>, year: Option<nat>)

  function BuildWhere(q: Query): (w: Where)
    ensures w.supplier.Some? <==> Truthy(q.supplier)
    ensures w.docNumber.Some? <==> Truthy(q.docNumber)
    ensures w.date.Some? <==> Truthy(q.date)
    ensures w.month.Some? <==> Truthy(q.month)
    ensures w.year.Some? <==> q.year.Some? && q.year.value != 0
  {
    var w := Where(None, None, None, None, None);
    var w := if Truthy(q.supplier) then w.(supplier := q.supplier) else w;
    var w := if Truthy(q.docNumber) then w.(docNumber := q.docNumber) else w;
    var w := if Truthy(q.date) then w.(date := Some(ParseIsoDate(q.date.value))) else w;
    var w := if Truthy(q.month) then w.(month := q.month) else w;
    if q.year.Some? && q.year.value != 0 then w.(year := q.year) else w
  }

  /** Whether a row satisfies every key of the `where` object. */
  predicate MatchesWhere(d: Document, w: Where) {
    && (w.supplier.Some? ==> ContainsIgnoringCase(d.supplier, w.supplier.value))
    && (w.docNumber.Some? ==> ContainsIgnoringCase(d.docNumber, w.docNumber.value))
    && (w.date.Some? ==> w.date.value == Some(d.date))
    && (w.month.Some? ==> d.month == w.month.value)
    && (w.year.Some? ==> d.year == w.year.value)
  }

  /**
   * A row is listed exactly when it passes every filter whose query field is given:
   * supplier and document number by case-insensitive containment, the others by equality.
   */
  lemma MatchesQuery(d: Document, q: Query)
    ensures MatchesWhere(d, BuildWhere(q)) <==>
      && (Truthy(q.supplier) ==> ContainsIgnoringCase(d.supplier, q.supplier.value))
      && (Truthy(q.docNumber) ==> ContainsIgnoringCase(d.docNumber, q.docNumber.value))
      && (Truthy(q.date) ==> ParseIsoDate(q.date.value) == Some(d.date))
      && (Truthy(q.month) ==> d.month == q.month.value)
      && (q.year.Some? && q.year.value != 0 ==> d.year == q.year.value)
  {
  }

  /** The supplier filter ignores the case the query is typed in. */
  lemma SupplierFilterIgnoresCase(d: Document, q: Query)
    requires Truthy(q.supplier)
    ensures MatchesWhere(d, BuildWhere(q)) == MatchesWhere(d, BuildWhere(q.(supplier := Some(Upper(q.supplier.value)))))
  {
    ContainsIgnoringCaseFacts(d.supplier, q.supplier.value);
  }

  function Filter(rows: seq<Document>, w: Where): (r: seq<Document>)
    ensures |r| <= |rows|
    ensures forall d :: d in r ==> d in rows && MatchesWhere(d, w)
  {
    if |rows| == 0 then []
    else Filter(rows[..|rows| - 1], w) + (if MatchesWhere(rows[|rows| - 1], w) then [rows[|rows| - 1]] else [])
  }

  lemma {:induction false} FilterKeepsMatches(rows: seq<Document>, w: Where)
    ensures forall d :: d in rows && MatchesWhere(d, w) ==> d in Filter(rows, w)
  {
    if |rows| > 0 {
      FilterKeepsMatches(rows[..|rows| - 1], w);
      assert forall d :: d in rows ==> d in rows[..|rows| - 1] || d == rows[|rows| - 1];
    }
  }

  /**
   * Filtering distributes over concatenation: the rows that pass keep the order
   * the database listed them in.
   */
  lemma {:induction false} FilterAppend(a: seq<Document>, b: seq<Document>, w: Where)
    ensures Filter(a + b, w) == Filter(a, w) + Filter(b, w)
    decreases |b|
  {
    if |b| == 0 {
      assert a + b == a;
    } else {
      var init := b[..|b| - 1];
      assert (a + b)[..|a + b| - 1] == a + init;
      assert (a + b)[|a + b| - 1] == b[|b| - 1];
      FilterAppend(a, init, w);
    }
  }

  /** A single row is kept exactly when it matches. */
  lemma FilterOne(d: Document, w: Where)
    ensures Filter([d], w) == if MatchesWhere(d, w) then [d] else []
  {
    assert [d][..0] == [];
  }

  /** `skip`/`take`: the rows from position `skip`, at most `take` of them. */
  function Window(rows: seq<Document>, skip: nat, take: nat): (r: seq<Document>)
    ensures |r| == if skip >= |rows| then 0 else if skip + take <= |rows| then take else |rows| - skip
    ensures forall j :: 0 <= j < |r| ==> r[j] == rows[skip + j]
    ensures forall d :: d in r ==> d in rows
  {
    if skip >= |rows| then [] else rows[skip..if skip + take <= |rows| then skip + take else |rows|]
  }

  /** `skip`: the rows before page `page`. */
  function Offset(page: nat, limit: nat): nat
    requires page >= 1
  {
    (page - 1) * limit
  }

  datatype PageMeta = PageMeta(total: nat, page: nat, limit: nat, totalPages: nat)
  datatype Listing = Listing(data: seq<Document>, meta: PageMeta)

  /**
   * `findAll` over `rowsByDate`, the rows as the database lists them for the date-descending
   * order: the filtered rows' page `page` of size `limit`, and the count of all filtered rows.
   */
  function FindAll(q: Query, rowsByDate: seq<Document>): (r: Listing)
    ensures r.meta.page == PageOf(q) && r.meta.limit == LimitOf(q)
    ensures r.meta.total == |Filter(rowsByDate, BuildWhere(q))|
    ensures r.meta.totalPages == CeilDiv(r.meta.total, r.meta.limit)
    ensures var skip := Offset(r.meta.page, r.meta.limit);
            |r.data| == if skip >= r.meta.total then 0
                        else if skip + r.meta.limit <= r.meta.total then r.meta.limit
                        else r.meta.total - skip
    ensures forall j :: 0 <= j < |r.data| ==>
              Offset(r.meta.page, r.meta.limit) + j < r.meta.total
              && r.data[j] == Filter(rowsByDate, BuildWhere(q))[Offset(r.meta.page, r.meta.limit) + j]
    ensures forall d :: d in r.data ==> d in rowsByDate && MatchesWhere(d, BuildWhere(q))
  {
    var page := PageOf(q);
    var limit := LimitOf(q);
    var matching := Filter(rowsByDate, BuildWhere(q));
    var data := Window(matching, Offset(page, limit), limit);
    Listing(data, PageMeta(|matching|, page, limit, CeilDiv(|matching|, limit)))
  }

  /** For `total` rows split into pages of `limit`, how many rows page `page` holds. */
  lemma {:induction false} PageSize(total: nat, limit: nat, page: nat)
    requires limit >= 1 && page >= 1
    ensures var skip := (page - 1) * limit;
            var tp := CeilDiv(total, limit);
            && (page <= tp ==> skip < total)
            && (page < tp ==> skip + limit <= total)
            && (page > tp ==> skip >= total)
  {
    var tp := CeilDiv(total, limit);
    var skip := (page - 1) * limit;
    if page <= tp {
      MulMono(page - 1, tp - 1, limit);
    }
    if page < tp {
      MulMono(page, tp - 1, limit);
      assert skip + limit == page * limit;
    }
    if page > tp {
      MulMono(tp, page - 1, limit);
    }
  }

  lemma MulMono(a: nat, b: nat, c: nat)
    requires a <= b
    ensures a * c <= b * c
  {
  }

  /**
   * Pages `1..totalPages` are the non-empty ones: each holds rows, the first
   * `totalPages - 1` are full, and the page after the last is empty.
   */
  lemma PagesCoverListing(q: Query, rowsByDate: seq<Document>, page: nat)
    requires page >= 1
    ensures var r := FindAll(q.(page := Some(page)), rowsByDate);
            && (page <= r.meta.totalPages ==> |r.data| > 0)
            && (page < r.meta.totalPages ==> |r.data| == r.meta.limit)
            && (page > r.meta.totalPages ==> |r.data| == 0)
  {
    var q' := q.(page := Some(page));
    var matching := Filter(rowsByDate, BuildWhere(q'));
    PageSize(|matching|, LimitOf(q'), page);
  }

  // ---------------------------------------------------------------------------
  // Partial update
  // ---------------------------------------------------------------------------

  /** The update body; an absent field is `None`. */
  datatype UpdateDto = UpdateDto(supplier: Option<string>, docNumber: Option<string>, date: Option<string>)

  /** `updateData`: supplier and document number whenever defined (even empty); date, month and year only for a truthy date. */
  datatype UpdateData = UpdateData(supplier: Option<string>, docNumber: Option<string>, date: Option<Date>)

  function BuildUpdate(dto: UpdateDto): (r: Result<UpdateData, string>)
    ensures r.Err? <==> Truthy(dto.date) && ParseIsoDate(dto.date.value).None?
    ensures r.Ok? ==> r.value.supplier == dto.supplier && r.value.docNumber == dto.docNumber
    ensures r.Ok? ==> (r.value.date.Some? <==> Truthy(dto.date))
  {
    if Truthy(dto.date) then
      match ParseIsoDate(dto.date.value)
      case None => Err(InvalidDateMessage)
      case Some(d) => Ok(UpdateData(dto.supplier, dto.docNumber, Some(d)))
    else Ok(UpdateData(dto.supplier, dto.docNumber, None))
  }

  function ApplyUpdate(d: Document, u: UpdateData): (r: Document)
    requires u.date.Some? ==> IsCalendarDate(u.date.value)
    ensures r.supplier == (if u.supplier.Some? then u.supplier.value else d.supplier)
    ensures r.docNumber == (if u.docNumber.Some? then u.docNumber.value else d.docNumber)
    ensures u.date.None? ==> r.date == d.date && r.month == d.month && r.year == d.year
    ensures r.id == d.id && r.filename == d.filename && r.minioKey == d.minioKey
            && r.fileSize == d.fileSize && r.fileExtension == d.fileExtension
  {
    var r := if u.supplier.Some? then d.(supplier := u.supplier.value) else d;
    var r := if u.docNumber.Some? then r.(docNumber := u.docNumber.value) else r;
    match u.date
    case None => r
    case Some(date) => r.(date := date, month := MonthNames[date.month - 1], year := date.year)
  }

  /** An update keeps a row's id, file fields, and the agreement of its month and year with its date. */
  lemma UpdateKeepsRowShape(d: Document, dto: UpdateDto)
    requires DateFieldsAgree(d) && BuildUpdate(dto).Ok?
    ensures var r := ApplyUpdate(d, BuildUpdate(dto).value);
            DateFieldsAgree(r) && r.id == d.id && r.filename == d.filename && r.minioKey == d.minioKey
            && r.fileSize == d.fileSize && r.fileExtension == d.fileExtension
            && (Truthy(dto.date) ==> Some(r.date) == ParseIsoDate(dto.date.value))
  {
  }

  // ---------------------------------------------------------------------------
  // The service
  // ---------------------------------------------------------------------------

  class DocumentsService {
    var rows: map<DocId, Document>
    var objects: set<string>
    var index: map<DocId, Document>
    var nextId: DocId

    function State(): Store
      reads this
    {
      Store(rows, objects, index, nextId)
    }

    ghost predicate Valid()
      reads this
    {
      WellFormed(State())
    }

    constructor ()
      ensures Valid() && rows == map[] && objects == {} && index == map[] && nextId == 0
    {
      rows, objects, index, nextId := map[], {}, map[], 0;
    }

    /** `findOne`: the row with that id, or not found. */
    function FindOne(id: DocId): (r: Result<Document, string>)
      reads this
      ensures r.Ok? <==> id in rows
      ensures r.Ok? ==> r.value == rows[id]
      ensures r.Err? ==> r.error == NotFoundMessage
    {
      if id in rows then Ok(rows[id]) else Err(NotFoundMessage)
    }

    /**
     * `create`: refuses a missing file; otherwise uploads, writes the row with supplier and
     * document number defaulting to empty, and indexes it.
     */
    method Create(supplier: Option<string>, docNumber: Option<string>, date: string, file: Option<File>, calls: Calls)
      returns (r: Result<Document, string>)
      requires Valid()
      modifies this
      ensures Valid()
      ensures (State(), r) == CreateStep(old(State()), supplier, docNumber, date, file, calls)
    {
      CreateStepWellFormed(State(), supplier, docNumber, date, file, calls);
      if file.None? {
        return Err(FileRequiredMessage);
      }
      var parsed := ParseIsoDate(date);
      if parsed.None? {
        return Err(InvalidDateMessage);
      }
      match calls.upload {
        case Err(m) =>
          return Err(m);
        case Ok(obj) =>
          r := Write(obj, file.value, OrEmpty(supplier), OrEmpty(docNumber), parsed.value, calls);
      }
    }

    /** The tail of `create`: store the object, write the row, index it; each write stays when a later one fails. */
    method Write(obj: StoredObject, file: File, supplier: string, docNumber: string, date: Date, calls: Calls)
      returns (r: Result<Document, string>)
      requires IsCalendarDate(date)
      modifies this
      ensures (State(), r) == CreateWrite(old(State()), obj, file, supplier, docNumber, date, calls)
    {
      objects := objects + {obj.filePath};
      if calls.createError.Some? {
        return Err(calls.createError.value);
      }
      var document := NewRow(nextId, obj, file, supplier, docNumber, date);
      rows := rows[document.id := document];
      nextId := nextId + 1;
      if calls.indexError.Some? {
        return Err(calls.indexError.value);
      }
      index := index[document.id := document];
      return Ok(document);
    }

    /**
     * `bulkCreate`: refuses an empty batch or a metadata count that differs from the file
     * count before touching anything; otherwise every item is processed in order and ends
     * up in `results` or in `errors`.
     */
    method BulkCreate(files: seq<File>, metadata: seq<Meta>, calls: nat -> Calls) returns (r: Result<BulkSummary, string>)
      requires Valid()
      modifies this
      ensures Valid()
      ensures |files| == 0 ==> r == Err(NoFilesMessage)
      ensures |files| > 0 && |metadata| != |files| ==> r == Err(CountMismatchMessage)
      ensures r.Err? ==> State() == old(State())
      ensures r.Ok? ==> |files| > 0 && |metadata| == |files|
      ensures r.Ok? ==>
                var run := BulkRun(old(State()), files, metadata, calls, |files|);
                && State() == run.0
                && r.value.results == Results(run.1) && r.value.errors == Errors(run.1)
                && r.value.success == |r.value.results| && r.value.failed == |r.value.errors|
                && r.value.success + r.value.failed == |files|
    {
      if |files| == 0 {
        return Err(NoFilesMessage);
      }
      if |metadata| != |files| {
        return Err(CountMismatchMessage);
      }
      ghost var start := State();
      var results: seq<Document> := [];
      var errors: seq<ItemError> := [];
      ghost var entries: seq<Entry> := [];
      for i := 0 to |files|
        invariant (State(), entries) == BulkRun(start, files, metadata, calls, i)
        invariant results == Results(entries) && errors == Errors(entries)
        invariant WellFormed(State())
      {
        BulkRunWellFormed(start, files, metadata, calls, i + 1);
        BulkRunStep(start, files, metadata, calls, i);
        var step := ProcessItem(files[i], metadata[i], calls(i));
        entries := entries + [step];
        assert entries[..|entries| - 1] == entries[..i];
        match step {
          case Stored(doc) => results := results + [doc];
          case Rejected(e) => errors := errors + [e];
        }
      }
      ResultsAndErrorsPartition(entries);
      return Ok(BulkSummary(|results|, |errors|, results, errors));
    }

    /** The body of the `bulkCreate` loop for one item. */
    method ProcessItem(file: File, meta: Meta, calls: Calls) returns (entry: Entry)
      modifies this
      ensures (State(), entry) == BulkItem(old(State()), file, meta, calls)
    {
      if !Truthy(meta.date) || !Truthy(meta.supplier) || !Truthy(meta.docNumber) {
        return Rejected(ItemError(file.originalname, MissingMetadataMessage));
      }
      var parsed := ParseIsoDate(meta.date.value);
      if parsed.None? {
        return Rejected(ItemError(file.originalname, InvalidDateMessage));
      }
      var docDate := parsed.value;
      match calls.upload {
        case Err(m) =>
          return Rejected(ItemError(file.originalname, ErrorMessage(m)));
        case Ok(obj) =>
          objects := objects + {obj.filePath};
          if calls.createError.Some? {
            return Rejected(ItemError(file.originalname, ErrorMessage(calls.createError.value)));
          }
          var document := NewRow(nextId, obj, file, meta.supplier.value, meta.docNumber.value, docDate);
          rows := rows[document.id := document];
          nextId := nextId + 1;
          if calls.indexError.Some? {
            return Rejected(ItemError(file.originalname, ErrorMessage(calls.indexError.value)));
          }
          index := index[document.id := document];
          return Stored(document);
      }
    }

    /**
     * `update`: not found before any write; otherwise the row gets the defined fields
     * (and, for a date, the matching month and year) and is re-indexed. A failed database
     * update writes nothing and skips the re-indexing; a failed re-indexing keeps the
     * updated row.
     */
    method Update(id: DocId, dto: UpdateDto, dbError: Option<string>, indexError: Option<string>)
      returns (r: Result<Document, string>)
      requires Valid()
      modifies this
      ensures Valid()
      ensures id !in old(rows) ==> r == Err(NotFoundMessage) && State() == old(State())
      ensures id in old(rows) && BuildUpdate(dto).Ok? && dbError.Some? ==>
                r == Err(dbError.value) && State() == old(State())
      ensures id in old(rows) && BuildUpdate(dto).Ok? && dbError.None? ==>
                var updated := ApplyUpdate(old(rows)[id], BuildUpdate(dto).value);
                rows == old(rows)[id := updated] && (r.Ok? <==> indexError.None?)
                && (r.Ok? ==> r.value == updated && index == old(index)[id := updated])
                && (r.Err? ==> r == Err(indexError.value) && index == old(index))
      ensures id in old(rows) && BuildUpdate(dto).Err? ==> r == Err(InvalidDateMessage) && State() == old(State())
      ensures objects == old(objects) && nextId == old(nextId)
    {
      var found := FindOne(id);
      if found.Err? {
        return Err(found.error);
      }
      var data := BuildUpdate(dto);
      if data.Err? {
        return Err(data.error);
      }
      if dbError.Some? {
        return Err(dbError.value);
      }
      UpdateKeepsRowShape(found.value, dto);
      var updatedDocument := ApplyUpdate(found.value, data.value);
      rows := rows[id := updatedDocument];
      if indexError.Some? {
        return Err(indexError.value);
      }
      index := index[id := updatedDocument];
      return Ok(updatedDocument);
    }

    /**
     * `remove`: not found before any write; otherwise the stored file is deleted (a failure
     * there is ignored), then the row, then the index entry. A failed row delete comes
     * after the file is gone: the row and the index entry stay.
     */
    method Remove(id: DocId, fileDeleteFails: bool, dbError: Option<string>, indexError: Option<string>)
      returns (r: Result<string, string>)
      requires Valid()
      modifies this
      ensures Valid()
      ensures id !in old(rows) ==> r == Err(NotFoundMessage) && State() == old(State())
      ensures id in old(rows) ==>
                objects == (if fileDeleteFails then old(objects) else old(objects) - {old(rows)[id].minioKey})
      ensures id in old(rows) && dbError.Some? ==>
                r == Err(dbError.value) && rows == old(rows) && index == old(index)
      ensures id in old(rows) && dbError.None? ==>
                && rows == old(rows) - {id}
                && (r.Ok? <==> indexError.None?)
                && (r.Ok? ==> r.value == DeletedMessage && index == old(index) - {id})
                && (r.Err? ==> index == old(index))
      ensures nextId == old(nextId)
    {
      var found := FindOne(id);
      if found.Err? {
        return Err(found.error);
      }
      if !fileDeleteFails {
        objects := objects - {found.value.minioKey};
      }
      if dbError.Some? {
        return Err(dbError.value);
      }
      rows := rows - {id};
      if indexError.Some? {
        return Err(indexError.value);
      }
      index := index - {id};
      return Ok(DeletedMessage);
    }
  }
}
