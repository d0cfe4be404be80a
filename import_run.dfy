/**
 * The scan-and-upload run of the legacy import script: every scanned path is
 * filtered by extension, parsed, checked for an existing copy and queued; the
 * queue is flushed in batches of `batchSize`, each upload being retried up to
 * three times, and the run keeps the `stats` counters. The directory walk, the
 * existence check over HTTP and the upload itself are inputs of the model.
 */
module ImportRun {
  import opened Outcomes
  import opened Text
  import opened LegacyImport

  // ---------------------------------------------------------------------------
  // Configuration and path helpers
  // ---------------------------------------------------------------------------

  const Extensions: seq<string> := [".pdf", ".jpg", ".png", ".jpeg"]

  const MaxRetries: nat := 3

  const InvalidPathMessage: string := "Invalid path structure or filename"

  /** The run's options: source folder, `--batch-size`, `--dry-run` and the `skipExisting` setting. */
  datatype Config = Config(sourcePath: string, batchSize: int, dryRun: bool, skipExisting: bool)

  /** A batch is flushed once `batch.length >= batchSize`; below 1 that is after every file. */
  function ChunkSize(cfg: Config): (n: nat)
    ensures n >= 1 && (cfg.batchSize >= 1 ==> n == cfg.batchSize)
  {
    if cfg.batchSize <= 1 then 1 else cfg.batchSize
  }

  /** `path.basename` for Windows paths: the text after the last `/` or `\`, or the whole path. */
  function Basename(p: string): (r: string)
    ensures '/' !in r && '\\' !in r
    ensures |r| <= |p| && r == p[|p| - |r|..]
    ensures |r| < |p| ==> p[|p| - |r| - 1] == '/' || p[|p| - |r| - 1] == '\\'
  {
    BasenameOfSlashed(p);
    LastPart(BackslashToSlash(p), '/')
  }

  /** The last `/`-part of the slashed path is a piece of the path itself. */
  lemma BasenameOfSlashed(p: string)
    ensures var r := LastPart(BackslashToSlash(p), '/');
            && '\\' !in r && |r| <= |p| && r == p[|p| - |r|..]
            && (|r| < |p| ==> p[|p| - |r| - 1] == '/' || p[|p| - |r| - 1] == '\\')
  {
    var t := BackslashToSlash(p);
    var r := LastPart(t, '/');
    var k := |t| - |r|;
    SlashedTail(p, k);
  }

  /** A slash-free tail of the slashed path is the same tail of the path. */
  lemma SlashedTail(p: string, k: nat)
    requires k <= |p| && '/' !in BackslashToSlash(p)[k..]
    ensures BackslashToSlash(p)[k..] == p[k..]
  {
    var t := BackslashToSlash(p);
    forall j | k <= j < |p| ensures t[j] == p[j] {
      assert t[j] == t[k..][j - k];
    }
  }

  /** Position of the last `.` in `s`, if any. */
  function LastDot(s: string): (r: Option<nat>)
    ensures r.Some? ==> r.value < |s| && s[r.value] == '.'
    ensures r.Some? ==> forall j :: r.value < j < |s| ==> s[j] != '.'
    ensures r.None? ==> '.' !in s
  {
    if |s| == 0 then None
    else if s[|s| - 1] == '.' then Some(|s| - 1)
    else LastDot(s[..|s| - 1])
  }

  /**
   * `path.extname`: from the last `.` of the base name to its end; empty when the
   * base name has no dot, when its only dot leads it, or when it is `..`.
   */
  function Extname(p: string): string {
    ExtOfBase(Basename(p))
  }

  /** The extension `path.extname` reads off a base name `b`. */
  function ExtOfBase(b: string): string {
    match LastDot(b)
    case None => ""
    case Some(i) => if i == 0 || b == ".." then "" else b[i..]
  }

  lemma ExtOfBaseShape(b: string)
    ensures var e := ExtOfBase(b);
            e == "" || (1 <= |e| <= |b| && e == b[|b| - |e|..] && e[0] == '.' && '.' !in e[1..])
    ensures '.' !in b ==> ExtOfBase(b) == ""
    ensures forall c :: c in ExtOfBase(b) ==> c in b
  {
    match LastDot(b)
    case None =>
    case Some(i) =>
      if i != 0 && b != ".." {
        var e := b[i..];
        assert e == b[|b| - |e|..];
        assert forall c :: c in e ==> c in b;
        assert forall j :: 0 <= j < |e| - 1 ==> e[1..][j] == b[i + 1 + j];
      }
  }

  /**
   * The extension is empty or a final piece of the base name that starts with its
   * last dot: a dot followed by dot-free, separator-free text.
   */
  lemma ExtnameShape(p: string)
    ensures var b := Basename(p);
            var e := Extname(p);
            e == "" || (1 <= |e| <= |b| && e == b[|b| - |e|..] && e[0] == '.' && '.' !in e[1..])
    ensures '.' !in Basename(p) ==> Extname(p) == ""
    ensures '/' !in Extname(p) && '\\' !in Extname(p)
  {
    var b := Basename(p);
    ExtOfBaseShape(b);
    var e := ExtOfBase(b);
    assert e == "" || (1 <= |e| <= |b| && e == b[|b| - |e|..] && e[0] == '.' && '.' !in e[1..]);
    assert '/' !in e && '\\' !in e;
  }

  /** Only files whose lower-cased extension is one of `Extensions` are counted and processed. */
  predicate IsCandidate(p: string) {
    Lower(Extname(p)) in Extensions
  }

  // ---------------------------------------------------------------------------
  // Errors, replies and statistics
  // ---------------------------------------------------------------------------

  datatype ErrorEntry =
    | InvalidFile(file: string, error: string)            // path that did not yield metadata
    | BatchFailure(batch: seq<string>, error: string)      // basenames of a batch whose upload threw
    | UploadError(filename: string, error: string)         // per-file error reported by the server

  /** A per-file error in the server's summary: `{ filename, error }`. */
  datatype ServerError = ServerError(filename: string, error: string)

  /** What one upload attempt gives: the server's summary, or the error it threw. */
  datatype Reply =
    | Response(success: nat, failed: nat, errors: seq<ServerError>)
    | Failure(message: string)

  /** The server's errors as they are appended to the run's error list, in the server's order. */
  function UploadErrors(errors: seq<ServerError>): (r: seq<ErrorEntry>)
    ensures |r| == |errors|
    ensures forall j :: 0 <= j < |r| ==> r[j] == UploadError(errors[j].filename, errors[j].error)
  {
    seq(|errors|, j requires 0 <= j < |errors| => UploadError(errors[j].filename, errors[j].error))
  }

  datatype Stats = Stats(
    total: nat, scanned: nat, skipped: nat, invalid: nat, alreadyExists: nat,
    success: nat, failed: nat, errors: seq<ErrorEntry>)

  const EmptyStats := Stats(0, 0, 0, 0, 0, 0, 0, [])

  // ---------------------------------------------------------------------------
  // uploadBatch: retries
  // ---------------------------------------------------------------------------

  /** The reply `uploadBatch` ends with when attempts `a..MaxRetries` are still to be made. */
  function RetryOutcome(attempt: nat -> Reply, a: nat): Reply
    requires 1 <= a <= MaxRetries
    decreases MaxRetries - a
  {
    if attempt(a).Response? || a == MaxRetries then attempt(a) else RetryOutcome(attempt, a + 1)
  }

  /**
   * The upload gives the first response among the three attempts, and throws the
   * last attempt's error only when all three fail.
   */
  lemma {:induction false} RetryOutcomeIsFirstResponse(attempt: nat -> Reply, a: nat)
    requires 1 <= a <= MaxRetries
    ensures RetryOutcome(attempt, a).Response? <==> exists b :: a <= b <= MaxRetries && attempt(b).Response?
    ensures RetryOutcome(attempt, a).Response? ==>
              exists b :: a <= b <= MaxRetries && RetryOutcome(attempt, a) == attempt(b)
                          && forall c :: a <= c < b ==> attempt(c).Failure?
    ensures RetryOutcome(attempt, a).Failure? ==> RetryOutcome(attempt, a) == attempt(MaxRetries)
    decreases MaxRetries - a
  {
    if !attempt(a).Response? && a < MaxRetries {
      RetryOutcomeIsFirstResponse(attempt, a + 1);
    }
  }

  /** `uploadBatch`'s retry loop; `attempt(a)` is what the `a`-th POST gives. */
  method UploadWithRetry(attempt: nat -> Reply) returns (r: Reply)
    ensures r == RetryOutcome(attempt, 1)
    ensures r.Response? <==> exists b :: 1 <= b <= MaxRetries && attempt(b).Response?
    ensures r.Failure? ==> r == attempt(MaxRetries)
  {
    RetryOutcomeIsFirstResponse(attempt, 1);
    var a := 1;
    while true
      invariant 1 <= a <= MaxRetries
      invariant forall c :: 1 <= c < a ==> attempt(c).Failure?
      invariant RetryOutcome(attempt, 1) == RetryOutcome(attempt, a)
      decreases MaxRetries - a
    {
      var reply := attempt(a);
      if reply.Response? {
        return reply;
      }
      if a == MaxRetries {
        return reply;
      }
      a := a + 1;
    }
  }

  // ---------------------------------------------------------------------------
  // What happens to each scanned path
  // ---------------------------------------------------------------------------

  datatype Disposition =
    | Ignored
    | Invalid(file: string)
    | AlreadyPresent
    | Queued(file: string, meta: Metadata)

  /**
   * The fate of the `i`-th scanned path: ignored for its extension, invalid, skipped
   * because the existence check (made only outside a dry run) found it, or queued.
   */
  function Dispose(p: string, i: nat, cfg: Config, alreadyImported: nat -> bool): (d: Disposition)
    ensures d.Ignored? <==> !IsCandidate(p)
    ensures d.Invalid? ==> d.file == p && ExtractMetadata(p, cfg.sourcePath).None?
    ensures d.Queued? ==> d.file == p && ExtractMetadata(p, cfg.sourcePath) == Some(d.meta)
    ensures d.AlreadyPresent? ==> !cfg.dryRun && cfg.skipExisting && ExtractMetadata(p, cfg.sourcePath).Some?
  {
    if !IsCandidate(p) then Ignored
    else match ExtractMetadata(p, cfg.sourcePath)
      case None => Invalid(p)
      case Some(m) =>
        if !cfg.dryRun && cfg.skipExisting && alreadyImported(i) then AlreadyPresent else Queued(p, m)
  }

  /** The disposition of every scanned path, in scan order. */
  function Dispositions(paths: seq<string>, cfg: Config, alreadyImported: nat -> bool): (ds: seq<Disposition>)
    ensures |ds| == |paths|
  {
    if |paths| == 0 then []
    else Dispositions(paths[..|paths| - 1], cfg, alreadyImported)
         + [Dispose(paths[|paths| - 1], |paths| - 1, cfg, alreadyImported)]
  }

  lemma {:induction false} DispositionAt(paths: seq<string>, cfg: Config, alreadyImported: nat -> bool, i: nat)
    requires i < |paths|
    ensures Dispositions(paths, cfg, alreadyImported)[i] == Dispose(paths[i], i, cfg, alreadyImported)
    decreases |paths|
  {
    var init := paths[..|paths| - 1];
    var last := Dispose(paths[|paths| - 1], |paths| - 1, cfg, alreadyImported);
    var ds := Dispositions(init, cfg, alreadyImported);
    assert Dispositions(paths, cfg, alreadyImported) == ds + [last];
    if i < |init| {
      DispositionAt(init, cfg, alreadyImported, i);
      assert init[i] == paths[i];
      assert (ds + [last])[i] == ds[i];
    } else {
      assert i == |paths| - 1;
      assert (ds + [last])[i] == last;
    }
  }

  datatype Tally = Tally(total: nat, invalid: nat, present: nat, queued: nat)

  /** The counters the first `n` dispositions contribute. */
  function TallyUpTo(ds: seq<Disposition>, n: nat): Tally
    requires n <= |ds|
  {
    if n == 0 then Tally(0, 0, 0, 0)
    else
      var t := TallyUpTo(ds, n - 1);
      match ds[n - 1]
      case Ignored => t
      case Invalid(_) => t.(total := t.total + 1, invalid := t.invalid + 1)
      case AlreadyPresent => t.(total := t.total + 1, present := t.present + 1)
      case Queued(_, _) => t.(total := t.total + 1, queued := t.queued + 1)
  }

  /** The paths among the first `n` that are queued for upload, in scan order. */
  function QueuedUpTo(ds: seq<Disposition>, n: nat): seq<string>
    requires n <= |ds|
  {
    if n == 0 then []
    else QueuedUpTo(ds, n - 1) + (if ds[n - 1].Queued? then [ds[n - 1].file] else [])
  }

  /** The metadata of the queued paths among the first `n`, in scan order. */
  function QueuedMetaUpTo(ds: seq<Disposition>, n: nat): seq<Metadata>
    requires n <= |ds|
  {
    if n == 0 then []
    else QueuedMetaUpTo(ds, n - 1) + (if ds[n - 1].Queued? then [ds[n - 1].meta] else [])
  }

  /** The paths among the first `n` that are reported invalid, in scan order. */
  function InvalidUpTo(ds: seq<Disposition>, n: nat): seq<string>
    requires n <= |ds|
  {
    if n == 0 then []
    else InvalidUpTo(ds, n - 1) + (if ds[n - 1].Invalid? then [ds[n - 1].file] else [])
  }

  /**
   * Every counted file is exactly one of invalid, already present or queued, and the
   * queued and invalid ones are the lists of those.
   */
  lemma {:induction false} TallyPartitions(ds: seq<Disposition>, n: nat)
    requires n <= |ds|
    ensures var t := TallyUpTo(ds, n);
            t.total == t.invalid + t.present + t.queued
            && t.queued == |QueuedUpTo(ds, n)|
            && t.invalid == |InvalidUpTo(ds, n)|
  {
    if n > 0 {
      TallyPartitions(ds, n - 1);
    }
  }

  lemma {:induction false} NothingPresent(ds: seq<Disposition>, n: nat)
    requires n <= |ds|
    requires forall i :: 0 <= i < |ds| ==> !ds[i].AlreadyPresent?
    ensures TallyUpTo(ds, n).present == 0
  {
    if n > 0 {
      NothingPresent(ds, n - 1);
    }
  }

  /** A dry run makes no existence check, so it never skips a file as already present. */
  lemma DryRunSkipsNothing(paths: seq<string>, cfg: Config, alreadyImported: nat -> bool)
    requires cfg.dryRun
    ensures TallyUpTo(Dispositions(paths, cfg, alreadyImported), |paths|).present == 0
  {
    var ds := Dispositions(paths, cfg, alreadyImported);
    forall i | 0 <= i < |ds| ensures !ds[i].AlreadyPresent? {
      DispositionAt(paths, cfg, alreadyImported, i);
    }
    NothingPresent(ds, |paths|);
  }

  /** The positions among the first `n` that are counted in `total`. */
  function CountedIndices(ds: seq<Disposition>, n: nat): set<nat>
    requires n <= |ds|
  {
    set i: nat | i < n && !ds[i].Ignored?
  }

  lemma {:induction false} TotalIsCounted(ds: seq<Disposition>, n: nat)
    requires n <= |ds|
    ensures TallyUpTo(ds, n).total == |CountedIndices(ds, n)|
  {
    if n > 0 {
      TotalIsCounted(ds, n - 1);
      if ds[n - 1].Ignored? {
        assert CountedIndices(ds, n) == CountedIndices(ds, n - 1);
      } else {
        assert CountedIndices(ds, n) == CountedIndices(ds, n - 1) + {n - 1};
      }
    }
  }

  /** `total` counts exactly the scanned files whose extension is accepted. */
  lemma TotalCountsCandidates(paths: seq<string>, cfg: Config, alreadyImported: nat -> bool)
    ensures var ds := Dispositions(paths, cfg, alreadyImported);
            TallyUpTo(ds, |paths|).total == |CountedIndices(ds, |paths|)|
            && forall i :: 0 <= i < |paths| ==> (i in CountedIndices(ds, |paths|) <==> IsCandidate(paths[i]))
  {
    var ds := Dispositions(paths, cfg, alreadyImported);
    TotalIsCounted(ds, |paths|);
    forall i | 0 <= i < |paths| ensures i in CountedIndices(ds, |paths|) <==> IsCandidate(paths[i]) {
      DispositionAt(paths, cfg, alreadyImported, i);
    }
  }

  // ---------------------------------------------------------------------------
  // Batches
  // ---------------------------------------------------------------------------

  /** The batches' entries one after the other, in batch order. */
  function Flatten<T>(bs: seq<seq<T>>): seq<T> {
    if |bs| == 0 then [] else Flatten(bs[..|bs| - 1]) + bs[|bs| - 1]
  }

  lemma FlattenAppend<T>(bs: seq<seq<T>>, b: seq<T>)
    ensures Flatten(bs + [b]) == Flatten(bs) + b
  {
    assert (bs + [b])[..|bs|] == bs;
  }

  lemma ConcatAssoc<T>(a: seq<T>, b: seq<T>, c: seq<T>)
    ensures a + (b + c) == a + b + c
  {
  }

  /** The reply the `k`-th batch's upload ends with. */
  function BatchReply(attempts: nat -> nat -> Reply, k: nat): Reply {
    RetryOutcome(attempts(k), 1)
  }

  /** How much a flushed batch adds to `success`: all of it in a dry run, else what the server accepted. */
  function Succeeded(cfg: Config, batch: seq<string>, reply: Reply): nat {
    if cfg.dryRun then |batch|
    else match reply
      case Response(s, _, _) => s
      case Failure(_) => 0
  }

  /** How much a flushed batch adds to `failed`: what the server rejected, or the whole batch when the upload threw. */
  function Rejected(cfg: Config, batch: seq<string>, reply: Reply): nat {
    if cfg.dryRun then 0
    else match reply
      case Response(_, f, _) => f
      case Failure(_) => |batch|
  }

  function SuccessSum(bs: seq<seq<string>>, cfg: Config, attempts: nat -> nat -> Reply): nat {
    if |bs| == 0 then 0
    else SuccessSum(bs[..|bs| - 1], cfg, attempts) + Succeeded(cfg, bs[|bs| - 1], BatchReply(attempts, |bs| - 1))
  }

  function FailedSum(bs: seq<seq<string>>, cfg: Config, attempts: nat -> nat -> Reply): nat {
    if |bs| == 0 then 0
    else FailedSum(bs[..|bs| - 1], cfg, attempts) + Rejected(cfg, bs[|bs| - 1], BatchReply(attempts, |bs| - 1))
  }

  /** The server accounts for every file of every batch it answers (as the bulk-upload endpoint does). */
  ghost predicate ServerAccountsAll(bs: seq<seq<string>>, attempts: nat -> nat -> Reply) {
    forall k :: 0 <= k < |bs| && BatchReply(attempts, k).Response? ==>
      BatchReply(attempts, k).success + BatchReply(attempts, k).failed == |bs[k]|
  }

  /**
   * A dry run reports every queued file as a success and none as failed; a real run
   * against a server that accounts for every file reports each queued file exactly
   * once as a success or a failure.
   */
  lemma {:induction false} UploadAccounting(bs: seq<seq<string>>, cfg: Config, attempts: nat -> nat -> Reply)
    ensures cfg.dryRun ==> SuccessSum(bs, cfg, attempts) == |Flatten(bs)| && FailedSum(bs, cfg, attempts) == 0
    ensures ServerAccountsAll(bs, attempts) ==>
              SuccessSum(bs, cfg, attempts) + FailedSum(bs, cfg, attempts) == |Flatten(bs)|
  {
    if |bs| > 0 {
      var init := bs[..|bs| - 1];
      UploadAccounting(init, cfg, attempts);
      if ServerAccountsAll(bs, attempts) {
        assert ServerAccountsAll(init, attempts) by {
          forall k | 0 <= k < |init| ensures init[k] == bs[k] { }
        }
      }
    }
  }

  /** `batch.map(f => path.basename(f))`. */
  function Basenames(batch: seq<string>): (r: seq<string>)
    ensures |r| == |batch|
    ensures forall j :: 0 <= j < |r| ==> r[j] == Basename(batch[j])
  {
    seq(|batch|, j requires 0 <= j < |batch| => Basename(batch[j]))
  }

  /** The files named in `InvalidFile` entries, in order. */
  function InvalidFiles(errors: seq<ErrorEntry>): seq<string> {
    if |errors| == 0 then []
    else InvalidFiles(errors[..|errors| - 1])
         + (if errors[|errors| - 1].InvalidFile? then [errors[|errors| - 1].file] else [])
  }

  lemma {:induction false} InvalidFilesAppend(a: seq<ErrorEntry>, b: seq<ErrorEntry>)
    ensures InvalidFiles(a + b) == InvalidFiles(a) + InvalidFiles(b)
    decreases |b|
  {
    if |b| == 0 {
      assert a + b == a;
    } else {
      assert (a + b)[..|a + b| - 1] == a + b[..|b| - 1];
      InvalidFilesAppend(a, b[..|b| - 1]);
    }
  }

  /** Server-reported and batch errors never name an invalid path. */
  lemma NoInvalidFilesIn(errors: seq<ErrorEntry>)
    requires forall e :: e in errors ==> !e.InvalidFile?
    ensures InvalidFiles(errors) == []
  {
    if |errors| > 0 {
      NoInvalidFilesIn(errors[..|errors| - 1]);
    }
  }

  /**
   * What a flush appends to `errors`: nothing in a dry run, the server's per-file
   * errors in order, or one entry naming the batch's files when the upload threw.
   */
  function Reported(cfg: Config, batch: seq<string>, reply: Reply): (r: seq<ErrorEntry>)
    ensures forall e :: e in r ==> !e.InvalidFile?
  {
    if cfg.dryRun then []
    else match reply
      case Response(_, _, errs) => UploadErrors(errs)
      case Failure(msg) => [BatchFailure(Basenames(batch), msg)]
  }

  /**
   * A dry run reports nothing; a response reports each of the server's errors, in
   * order, under its file name; a thrown upload reports the base names of the
   * batch's files, in order, with the error message.
   */
  lemma ReportedEntries(cfg: Config, batch: seq<string>, reply: Reply)
    ensures cfg.dryRun ==> Reported(cfg, batch, reply) == []
    ensures !cfg.dryRun && reply.Response? ==>
              var r := Reported(cfg, batch, reply);
              |r| == |reply.errors|
              && forall j :: 0 <= j < |r| ==> r[j] == UploadError(reply.errors[j].filename, reply.errors[j].error)
    ensures !cfg.dryRun && reply.Failure? ==>
              var r := Reported(cfg, batch, reply);
              |r| == 1 && r[0].BatchFailure? && r[0].error == reply.message && |r[0].batch| == |batch|
              && forall j :: 0 <= j < |batch| ==> r[0].batch[j] == Basename(batch[j])
  {
  }

  /** The entries of the flushed batches, in flush order. */
  function ReportedAll(bs: seq<seq<string>>, cfg: Config, attempts: nat -> nat -> Reply): seq<ErrorEntry> {
    if |bs| == 0 then []
    else ReportedAll(bs[..|bs| - 1], cfg, attempts) + Reported(cfg, bs[|bs| - 1], BatchReply(attempts, |bs| - 1))
  }

  /** The entries that are not invalid-path entries, in order. */
  function OtherErrors(errors: seq<ErrorEntry>): seq<ErrorEntry> {
    if |errors| == 0 then []
    else OtherErrors(errors[..|errors| - 1])
         + (if errors[|errors| - 1].InvalidFile? then [] else [errors[|errors| - 1]])
  }

  lemma {:induction false} OtherErrorsAppend(a: seq<ErrorEntry>, b: seq<ErrorEntry>)
    ensures OtherErrors(a + b) == OtherErrors(a) + OtherErrors(b)
    decreases |b|
  {
    if |b| == 0 {
      assert a + b == a;
    } else {
      assert (a + b)[..|a + b| - 1] == a + b[..|b| - 1];
      OtherErrorsAppend(a, b[..|b| - 1]);
    }
  }

  /** Entries with no invalid-path entry among them are all kept. */
  lemma {:induction false} OtherErrorsKeepsAll(errors: seq<ErrorEntry>)
    requires forall e :: e in errors ==> !e.InvalidFile?
    ensures OtherErrors(errors) == errors
  {
    if |errors| > 0 {
      var init := errors[..|errors| - 1];
      assert forall e :: e in init ==> e in errors;
      OtherErrorsKeepsAll(init);
      assert init + [errors[|errors| - 1]] == errors;
    }
  }

  /** An invalid-path entry joins the invalid paths and leaves the other entries alone. */
  lemma InvalidEntryAppend(errors: seq<ErrorEntry>, file: string)
    ensures InvalidFiles(errors + [InvalidFile(file, InvalidPathMessage)]) == InvalidFiles(errors) + [file]
    ensures OtherErrors(errors + [InvalidFile(file, InvalidPathMessage)]) == OtherErrors(errors)
  {
    var e := errors + [InvalidFile(file, InvalidPathMessage)];
    assert e[..|e| - 1] == errors;
  }

  /** Flushing one more batch appends its entries to the upload errors. */
  lemma FlushedErrors(errors: seq<ErrorEntry>, bs: seq<seq<string>>, batch: seq<string>, cfg: Config,
                      attempts: nat -> nat -> Reply)
    requires OtherErrors(errors) == ReportedAll(bs, cfg, attempts)
    ensures OtherErrors(errors + Reported(cfg, batch, BatchReply(attempts, |bs|))) == ReportedAll(bs + [batch], cfg, attempts)
  {
    var reported := Reported(cfg, batch, BatchReply(attempts, |bs|));
    OtherErrorsAppend(errors, reported);
    OtherErrorsKeepsAll(reported);
    assert (bs + [batch])[..|bs|] == bs;
  }

  /** `ExtractMetadata` with the source root fixed: the parse the scan applies to every path. */
  function ParserOf(sourcePath: string): string -> Option<Metadata> {
    p => ExtractMetadata(p, sourcePath)
  }

  /** Each file of a batch has, at the same index, what `parse` makes of its path. */
  predicate BatchAligned(batch: seq<string>, meta: seq<Metadata>, parse: string -> Option<Metadata>) {
    |meta| == |batch| && forall j :: 0 <= j < |batch| ==> parse(batch[j]) == Some(meta[j])
  }

  predicate AllAligned(batches: seq<seq<string>>, metas: seq<seq<Metadata>>, parse: string -> Option<Metadata>) {
    |metas| == |batches| && forall k :: 0 <= k < |batches| ==> BatchAligned(batches[k], metas[k], parse)
  }

  /** Each batch of files has a metadata batch of the same length. */
  predicate SameShape(bs: seq<seq<string>>, ms: seq<seq<Metadata>>) {
    |ms| == |bs| && forall k :: 0 <= k < |bs| ==> |ms[k]| == |bs[k]|
  }

  /** Two runs of files are each aligned exactly when the two joined are. */
  lemma BatchAlignedSplit(a: seq<string>, ma: seq<Metadata>, b: seq<string>, mb: seq<Metadata>, parse: string -> Option<Metadata>)
    requires |ma| == |a|
    ensures BatchAligned(a + b, ma + mb, parse) <==> BatchAligned(a, ma, parse) && BatchAligned(b, mb, parse)
  {
    if BatchAligned(a + b, ma + mb, parse) {
      assert forall j :: 0 <= j < |a| ==> (a + b)[j] == a[j] && (ma + mb)[j] == ma[j];
      assert forall j :: 0 <= j < |b| ==> (a + b)[|a| + j] == b[j] && (ma + mb)[|a| + j] == mb[j];
    }
  }

  lemma {:induction false} FlattenSameShape(bs: seq<seq<string>>, ms: seq<seq<Metadata>>)
    requires SameShape(bs, ms)
    ensures |Flatten(ms)| == |Flatten(bs)|
  {
    if |bs| > 0 {
      FlattenSameShape(bs[..|bs| - 1], ms[..|ms| - 1]);
    }
  }

  /** Batches of the same shape as their metadata batches, aligned when flattened, are aligned batch by batch. */
  lemma {:induction false} Unflatten(bs: seq<seq<string>>, ms: seq<seq<Metadata>>, parse: string -> Option<Metadata>)
    requires SameShape(bs, ms) && BatchAligned(Flatten(bs), Flatten(ms), parse)
    ensures AllAligned(bs, ms, parse)
  {
    if |bs| > 0 {
      var bi, mi := bs[..|bs| - 1], ms[..|ms| - 1];
      FlattenSameShape(bi, mi);
      BatchAlignedSplit(Flatten(bi), Flatten(mi), bs[|bs| - 1], ms[|ms| - 1], parse);
      Unflatten(bi, mi, parse);
      assert forall k :: 0 <= k < |bi| ==> bs[k] == bi[k] && ms[k] == mi[k];
    }
  }

  /** Every queued disposition carries what `parse` makes of its path. */
  ghost predicate QueuedParse(ds: seq<Disposition>, parse: string -> Option<Metadata>) {
    forall i :: 0 <= i < |ds| && ds[i].Queued? ==> parse(ds[i].file) == Some(ds[i].meta)
  }

  /** The queued paths sit beside their metadata when every queued disposition was parsed from its path. */
  lemma {:induction false} QueuedAligned(ds: seq<Disposition>, n: nat, parse: string -> Option<Metadata>)
    requires n <= |ds|
    requires QueuedParse(ds, parse)
    ensures BatchAligned(QueuedUpTo(ds, n), QueuedMetaUpTo(ds, n), parse)
  {
    if n > 0 {
      QueuedAligned(ds, n - 1, parse);
      var d := ds[n - 1];
      if d.Queued? {
        BatchAlignedSplit(QueuedUpTo(ds, n - 1), QueuedMetaUpTo(ds, n - 1), [d.file], [d.meta], parse);
      } else {
        assert QueuedUpTo(ds, n) == QueuedUpTo(ds, n - 1) && QueuedMetaUpTo(ds, n) == QueuedMetaUpTo(ds, n - 1);
      }
    }
  }

  /** Every queued disposition carries the metadata extracted from its own path. */
  lemma DispositionsParse(paths: seq<string>, cfg: Config, alreadyImported: nat -> bool)
    ensures QueuedParse(Dispositions(paths, cfg, alreadyImported), ParserOf(cfg.sourcePath))
  {
    var ds := Dispositions(paths, cfg, alreadyImported);
    forall i | 0 <= i < |ds| && ds[i].Queued? ensures ParserOf(cfg.sourcePath)(ds[i].file) == Some(ds[i].meta) {
      DispositionAt(paths, cfg, alreadyImported, i);
    }
  }

  /** The queued paths, in scan order, sit beside the metadata parsed from each. */
  lemma QueuedParsed(paths: seq<string>, cfg: Config, alreadyImported: nat -> bool)
    ensures var ds := Dispositions(paths, cfg, alreadyImported);
            BatchAligned(QueuedUpTo(ds, |paths|), QueuedMetaUpTo(ds, |paths|), ParserOf(cfg.sourcePath))
  {
    DispositionsParse(paths, cfg, alreadyImported);
    QueuedAligned(Dispositions(paths, cfg, alreadyImported), |paths|, ParserOf(cfg.sourcePath));
  }

  /** Flushing one more batch extends the flattened list and both counters by that batch. */
  lemma BatchesAppend(bs: seq<seq<string>>, batch: seq<string>, cfg: Config, attempts: nat -> nat -> Reply)
    ensures Flatten(bs + [batch]) == Flatten(bs) + batch
    ensures SuccessSum(bs + [batch], cfg, attempts) == SuccessSum(bs, cfg, attempts) + Succeeded(cfg, batch, BatchReply(attempts, |bs|))
    ensures FailedSum(bs + [batch], cfg, attempts) == FailedSum(bs, cfg, attempts) + Rejected(cfg, batch, BatchReply(attempts, |bs|))
    ensures forall k :: 0 <= k < |bs| ==> (bs + [batch])[k] == bs[k]
  {
    FlattenAppend(bs, batch);
    assert (bs + [batch])[..|bs|] == bs;
  }

  /** Both a full batch and the residue are flushed the same way: counted, uploaded or dry-run. */
  method Flush(stats: Stats, batch: seq<string>, k: nat, cfg: Config, attempts: nat -> nat -> Reply)
    returns (next: Stats)
    ensures next.success == stats.success + Succeeded(cfg, batch, BatchReply(attempts, k))
    ensures next.failed == stats.failed + Rejected(cfg, batch, BatchReply(attempts, k))
    ensures next.errors == stats.errors + Reported(cfg, batch, BatchReply(attempts, k))
    ensures InvalidFiles(next.errors) == InvalidFiles(stats.errors)
    ensures next == stats.(success := next.success, failed := next.failed, errors := next.errors)
  {
    if cfg.dryRun {
      next := stats.(success := stats.success + |batch|);
      assert stats.errors + [] == stats.errors;
    } else {
      var reply := UploadWithRetry(attempts(k));
      match reply
      case Response(s, f, errs) =>
        var entries := UploadErrors(errs);
        NoInvalidFilesIn(entries);
        InvalidFilesAppend(stats.errors, entries);
        next := stats.(success := stats.success + s, failed := stats.failed + f, errors := stats.errors + entries);
      case Failure(msg) =>
        var entry := [BatchFailure(Basenames(batch), msg)];
        NoInvalidFilesIn(entry);
        InvalidFilesAppend(stats.errors, entry);
        next := stats.(failed := stats.failed + |batch|, errors := stats.errors + entry);
    }
  }

  // ---------------------------------------------------------------------------
  // main: the scan loop
  // ---------------------------------------------------------------------------


  /** The scan loop's state: the counters, the batch being filled, and the batches already flushed. */
  datatype Progress = Progress(
    stats: Stats, batch: seq<string>, batchMetadata: seq<Metadata>,
    flushed: seq<seq<string>>, flushedMeta: seq<seq<Metadata>>)

  /** What the state after the first `n` scanned paths says, in terms of their dispositions. */
  ghost predicate Consistent(run: Progress, ds: seq<Disposition>, n: nat, cfg: Config, attempts: nat -> nat -> Reply)
    requires n <= |ds|
  {
    var t := TallyUpTo(ds, n);
    && run.stats.scanned == n
    && run.stats.total == t.total && run.stats.invalid == t.invalid
    && run.stats.alreadyExists == t.present && run.stats.skipped == t.present
    && Flatten(run.flushed) + run.batch == QueuedUpTo(ds, n)
    && Flatten(run.flushedMeta) + run.batchMetadata == QueuedMetaUpTo(ds, n)
    && Batching(run, cfg, attempts)
    && InvalidFiles(run.stats.errors) == InvalidUpTo(ds, n)
  }

  /**
   * The batch being filled is short of `batchSize`, every flushed batch is full, each
   * batch of files has its batch of metadata, and the upload counters and the upload
   * errors are those of the flushed batches.
   */
  ghost predicate Batching(run: Progress, cfg: Config, attempts: nat -> nat -> Reply) {
    Shaped(run, cfg) && Accounted(run.stats, run.flushed, cfg, attempts)
  }

  /** The batch being filled is short of `batchSize`, every flushed batch is full, and each has its metadata batch. */
  ghost predicate Shaped(run: Progress, cfg: Config) {
    && |run.batch| < ChunkSize(cfg)
    && (forall k :: 0 <= k < |run.flushed| ==> |run.flushed[k]| == ChunkSize(cfg))
    && |run.batchMetadata| == |run.batch|
    && SameShape(run.flushed, run.flushedMeta)
  }

  /** The upload counters and the upload errors are those of the flushed batches. */
  ghost predicate Accounted(stats: Stats, flushed: seq<seq<string>>, cfg: Config, attempts: nat -> nat -> Reply) {
    && stats.success == SuccessSum(flushed, cfg, attempts)
    && stats.failed == FailedSum(flushed, cfg, attempts)
    && OtherErrors(stats.errors) == ReportedAll(flushed, cfg, attempts)
  }

  /** A file that leaves the batch short of `batchSize` just joins it. */
  lemma AppendKeepsBatching(run: Progress, filePath: string, meta: Metadata, cfg: Config, attempts: nat -> nat -> Reply)
    requires Batching(run, cfg, attempts) && |run.batch| + 1 < cfg.batchSize
    ensures Batching(run.(batch := run.batch + [filePath], batchMetadata := run.batchMetadata + [meta]), cfg, attempts)
  {
    AppendKeepsShape(run, filePath, meta, cfg);
  }

  lemma AppendKeepsShape(run: Progress, filePath: string, meta: Metadata, cfg: Config)
    requires Shaped(run, cfg) && |run.batch| + 1 < cfg.batchSize
    ensures Shaped(run.(batch := run.batch + [filePath], batchMetadata := run.batchMetadata + [meta]), cfg)
  {
  }

  /** A file that fills the batch flushes it: the batch joins the flushed ones and a new one starts. */
  lemma FlushKeepsBatching(run: Progress, stats: Stats, filePath: string, meta: Metadata, cfg: Config,
                           attempts: nat -> nat -> Reply)
    requires Batching(run, cfg, attempts) && |run.batch| + 1 >= cfg.batchSize
    requires var batch := run.batch + [filePath];
             && stats.success == run.stats.success + Succeeded(cfg, batch, BatchReply(attempts, |run.flushed|))
             && stats.failed == run.stats.failed + Rejected(cfg, batch, BatchReply(attempts, |run.flushed|))
             && stats.errors == run.stats.errors + Reported(cfg, batch, BatchReply(attempts, |run.flushed|))
    ensures var batch := run.batch + [filePath];
            && Batching(Progress(stats, [], [], run.flushed + [batch], run.flushedMeta + [run.batchMetadata + [meta]]), cfg, attempts)
            && Flatten(run.flushed + [batch]) == Flatten(run.flushed) + batch
            && Flatten(run.flushedMeta + [run.batchMetadata + [meta]]) == Flatten(run.flushedMeta) + (run.batchMetadata + [meta])
  {
    var batch := run.batch + [filePath];
    FlushKeepsShape(run, stats, filePath, meta, cfg);
    FlushKeepsAccounts(run.stats, stats, run.flushed, batch, cfg, attempts);
    FlattenAppend(run.flushed, batch);
    FlattenAppend(run.flushedMeta, run.batchMetadata + [meta]);
  }

  lemma FlushKeepsShape(run: Progress, stats: Stats, filePath: string, meta: Metadata, cfg: Config)
    requires Shaped(run, cfg) && |run.batch| + 1 >= cfg.batchSize
    ensures Shaped(Progress(stats, [], [], run.flushed + [run.batch + [filePath]], run.flushedMeta + [run.batchMetadata + [meta]]), cfg)
  {
    var batch := run.batch + [filePath];
    assert forall k :: 0 <= k < |run.flushed| ==>
             (run.flushed + [batch])[k] == run.flushed[k] && (run.flushedMeta + [run.batchMetadata + [meta]])[k] == run.flushedMeta[k];
  }

  lemma FlushKeepsAccounts(before: Stats, stats: Stats, flushed: seq<seq<string>>, batch: seq<string>, cfg: Config,
                           attempts: nat -> nat -> Reply)
    requires Accounted(before, flushed, cfg, attempts)
    requires stats.success == before.success + Succeeded(cfg, batch, BatchReply(attempts, |flushed|))
    requires stats.failed == before.failed + Rejected(cfg, batch, BatchReply(attempts, |flushed|))
    requires stats.errors == before.errors + Reported(cfg, batch, BatchReply(attempts, |flushed|))
    ensures Accounted(stats, flushed + [batch], cfg, attempts)
  {
    assert (flushed + [batch])[..|flushed|] == flushed;
    FlushedErrors(before.errors, flushed, batch, cfg, attempts);
  }

  /**
   * Appends a parsed file to the current batch and flushes the batch once it holds
   * `batchSize` files: the tail of the scan loop.
   */
  method Enqueue(run: Progress, filePath: string, meta: Metadata, cfg: Config, attempts: nat -> nat -> Reply)
    returns (next: Progress)
    requires Batching(run, cfg, attempts)
    ensures Flatten(next.flushed) + next.batch == Flatten(run.flushed) + run.batch + [filePath]
    ensures Flatten(next.flushedMeta) + next.batchMetadata == Flatten(run.flushedMeta) + run.batchMetadata + [meta]
    ensures Batching(next, cfg, attempts)
    ensures InvalidFiles(next.stats.errors) == InvalidFiles(run.stats.errors)
    ensures next.stats == run.stats.(success := next.stats.success, failed := next.stats.failed, errors := next.stats.errors)
  {
    var batch := run.batch + [filePath];
    var batchMetadata := run.batchMetadata + [meta];
    ConcatAssoc(Flatten(run.flushed), run.batch, [filePath]);
    ConcatAssoc(Flatten(run.flushedMeta), run.batchMetadata, [meta]);
    if |batch| >= cfg.batchSize {
      var stats := Flush(run.stats, batch, |run.flushed|, cfg, attempts);
      FlushKeepsBatching(run, stats, filePath, meta, cfg, attempts);
      next := Progress(stats, [], [], run.flushed + [batch], run.flushedMeta + [batchMetadata]);
      assert Flatten(next.flushed) + next.batch == Flatten(run.flushed) + batch;
      assert Flatten(next.flushedMeta) + next.batchMetadata == Flatten(run.flushedMeta) + batchMetadata;
    } else {
      AppendKeepsBatching(run, filePath, meta, cfg, attempts);
      next := run.(batch := batch, batchMetadata := batchMetadata);
    }
  }

  /** An ignored path only advances the scanned counter. */
  lemma IgnoredKeepsConsistent(run: Progress, ds: seq<Disposition>, i: nat, cfg: Config, attempts: nat -> nat -> Reply)
    requires i < |ds| && ds[i] == Ignored
    requires Consistent(run, ds, i, cfg, attempts)
    ensures Consistent(run.(stats := run.stats.(scanned := i + 1)), ds, i + 1, cfg, attempts)
  {
    assert TallyUpTo(ds, i + 1) == TallyUpTo(ds, i);
    assert QueuedUpTo(ds, i + 1) == QueuedUpTo(ds, i) && InvalidUpTo(ds, i + 1) == InvalidUpTo(ds, i);
    assert QueuedMetaUpTo(ds, i + 1) == QueuedMetaUpTo(ds, i);
  }

  /** An invalid path is counted, and reported as an invalid-file error. */
  lemma InvalidKeepsConsistent(run: Progress, ds: seq<Disposition>, i: nat, cfg: Config, attempts: nat -> nat -> Reply)
    requires i < |ds| && ds[i].Invalid?
    requires Consistent(run, ds, i, cfg, attempts)
    ensures var s := run.stats;
            Consistent(run.(stats := s.(scanned := i + 1, total := s.total + 1, invalid := s.invalid + 1,
                                        errors := s.errors + [InvalidFile(ds[i].file, InvalidPathMessage)])),
                       ds, i + 1, cfg, attempts)
  {
    assert TallyUpTo(ds, i + 1) == TallyUpTo(ds, i).(total := run.stats.total + 1, invalid := run.stats.invalid + 1);
    assert QueuedUpTo(ds, i + 1) == QueuedUpTo(ds, i) && InvalidUpTo(ds, i + 1) == InvalidUpTo(ds, i) + [ds[i].file];
    assert QueuedMetaUpTo(ds, i + 1) == QueuedMetaUpTo(ds, i);
    InvalidEntryAppend(run.stats.errors, ds[i].file);
  }

  /** A path found already imported is counted as both present and skipped. */
  lemma PresentKeepsConsistent(run: Progress, ds: seq<Disposition>, i: nat, cfg: Config, attempts: nat -> nat -> Reply)
    requires i < |ds| && ds[i] == AlreadyPresent
    requires Consistent(run, ds, i, cfg, attempts)
    ensures var s := run.stats;
            Consistent(run.(stats := s.(scanned := i + 1, total := s.total + 1,
                                        alreadyExists := s.alreadyExists + 1, skipped := s.skipped + 1)),
                       ds, i + 1, cfg, attempts)
  {
    assert TallyUpTo(ds, i + 1) == TallyUpTo(ds, i).(total := run.stats.total + 1, present := run.stats.alreadyExists + 1);
    assert QueuedUpTo(ds, i + 1) == QueuedUpTo(ds, i) && InvalidUpTo(ds, i + 1) == InvalidUpTo(ds, i);
    assert QueuedMetaUpTo(ds, i + 1) == QueuedMetaUpTo(ds, i);
  }

  /** A queued path is counted and joins the queued list. */
  lemma QueuedStep(ds: seq<Disposition>, i: nat)
    requires i < |ds| && ds[i].Queued?
    ensures var t := TallyUpTo(ds, i);
            TallyUpTo(ds, i + 1) == t.(total := t.total + 1, queued := t.queued + 1)
    ensures QueuedUpTo(ds, i + 1) == QueuedUpTo(ds, i) + [ds[i].file]
    ensures QueuedMetaUpTo(ds, i + 1) == QueuedMetaUpTo(ds, i) + [ds[i].meta]
    ensures InvalidUpTo(ds, i + 1) == InvalidUpTo(ds, i)
  {
  }

  /** A queued path is counted and handed to `Enqueue`, whose result keeps the state consistent. */
  lemma QueuedKeepsConsistent(run: Progress, next: Progress, ds: seq<Disposition>, i: nat, cfg: Config,
                              attempts: nat -> nat -> Reply)
    requires i < |ds| && ds[i].Queued?
    requires Consistent(run, ds, i, cfg, attempts)
    requires Flatten(next.flushed) + next.batch == Flatten(run.flushed) + run.batch + [ds[i].file]
    requires Flatten(next.flushedMeta) + next.batchMetadata == Flatten(run.flushedMeta) + run.batchMetadata + [ds[i].meta]
    requires Batching(next, cfg, attempts)
    requires InvalidFiles(next.stats.errors) == InvalidFiles(run.stats.errors)
    requires next.stats == run.stats.(scanned := i + 1, total := run.stats.total + 1, success := next.stats.success,
                                      failed := next.stats.failed, errors := next.stats.errors)
    ensures Consistent(next, ds, i + 1, cfg, attempts)
  {
    QueuedStep(ds, i);
  }

  /**
   * One pass of the scan loop over the `i`-th path: count it as scanned, skip it for its
   * extension, record it as invalid, skip it as already imported, or queue it.
   */
  method Visit(run: Progress, paths: seq<string>, i: nat, cfg: Config, alreadyImported: nat -> bool,
               attempts: nat -> nat -> Reply)
    returns (next: Progress)
    requires i < |paths|
    requires Consistent(run, Dispositions(paths, cfg, alreadyImported), i, cfg, attempts)
    ensures Consistent(next, Dispositions(paths, cfg, alreadyImported), i + 1, cfg, attempts)
  {
    ghost var ds := Dispositions(paths, cfg, alreadyImported);
    DispositionAt(paths, cfg, alreadyImported, i);
    var filePath := paths[i];
    var stats := run.stats.(scanned := run.stats.scanned + 1);
    if !IsCandidate(filePath) {
      IgnoredKeepsConsistent(run, ds, i, cfg, attempts);
      return run.(stats := stats);
    }
    stats := stats.(total := stats.total + 1);
    var metadata := ExtractMetadata(filePath, cfg.sourcePath);
    if metadata.None? {
      var entry := [InvalidFile(filePath, InvalidPathMessage)];
      InvalidKeepsConsistent(run, ds, i, cfg, attempts);
      return run.(stats := stats.(invalid := stats.invalid + 1, errors := stats.errors + entry));
    }
    if !cfg.dryRun && cfg.skipExisting && alreadyImported(i) {
      PresentKeepsConsistent(run, ds, i, cfg, attempts);
      return run.(stats := stats.(alreadyExists := stats.alreadyExists + 1, skipped := stats.skipped + 1));
    }
    assert ds[i] == Queued(filePath, metadata.value);
    next := Enqueue(run.(stats := stats), filePath, metadata.value, cfg, attempts);
    QueuedKeepsConsistent(run, next, ds, i, cfg, attempts);
  }

  /** Nothing scanned, nothing queued, nothing flushed. */
  lemma StartConsistent(ds: seq<Disposition>, cfg: Config, attempts: nat -> nat -> Reply)
    ensures Consistent(Progress(EmptyStats, [], [], [], []), ds, 0, cfg, attempts)
  {
  }

  /** The scan loop itself, up to (not including) the flush of the last partial batch. */
  method Scan(paths: seq<string>, cfg: Config, alreadyImported: nat -> bool, attempts: nat -> nat -> Reply)
    returns (run: Progress)
    ensures Consistent(run, Dispositions(paths, cfg, alreadyImported), |paths|, cfg, attempts)
  {
    run := Progress(EmptyStats, [], [], [], []);
    StartConsistent(Dispositions(paths, cfg, alreadyImported), cfg, attempts);
    for i := 0 to |paths|
      invariant Consistent(run, Dispositions(paths, cfg, alreadyImported), i, cfg, attempts)
    {
      run := Visit(run, paths, i, cfg, alreadyImported, attempts);
    }
  }

  /**
   * The flush after the loop: the last, partial batch is flushed when it holds any
   * file, so every file queued ends up in a flushed batch, and no flushed batch is empty.
   */
  method Drain(run: Progress, cfg: Config, attempts: nat -> nat -> Reply)
    returns (stats: Stats, flushed: seq<seq<string>>, flushedMeta: seq<seq<Metadata>>)
    requires Batching(run, cfg, attempts)
    ensures Flatten(flushed) == Flatten(run.flushed) + run.batch
    ensures Flatten(flushedMeta) == Flatten(run.flushedMeta) + run.batchMetadata
    ensures SameShape(flushed, flushedMeta)
    ensures forall k :: 0 <= k < |flushed| ==> 0 < |flushed[k]| <= ChunkSize(cfg)
    ensures forall k :: 0 <= k < |flushed| - 1 ==> |flushed[k]| == ChunkSize(cfg)
    ensures Accounted(stats, flushed, cfg, attempts)
    ensures InvalidFiles(stats.errors) == InvalidFiles(run.stats.errors)
    ensures stats == run.stats.(success := stats.success, failed := stats.failed, errors := stats.errors)
  {
    stats, flushed, flushedMeta := run.stats, run.flushed, run.flushedMeta;
    if |run.batch| > 0 {
      stats := Flush(stats, run.batch, |flushed|, cfg, attempts);
      BatchesAppend(flushed, run.batch, cfg, attempts);
      FlattenAppend(flushedMeta, run.batchMetadata);
      FlushKeepsAccounts(run.stats, stats, flushed, run.batch, cfg, attempts);
      assert forall k :: 0 <= k < |flushed| ==> (flushedMeta + [run.batchMetadata])[k] == flushedMeta[k];
      flushed, flushedMeta := flushed + [run.batch], flushedMeta + [run.batchMetadata];
    } else {
      assert run.batch == [] && run.batchMetadata == [];
    }
  }

  /**
   * The scan of `main`: `paths` is what the directory walk yields, `alreadyImported(i)`
   * what the existence check answers for the `i`-th path, `attempts(k)(a)` what the
   * `a`-th POST of the `k`-th batch gives. Returns the final counters, the batches
   * flushed (in order) and their index-aligned metadata. The error list holds the
   * invalid paths in scan order and the flushed batches' errors in flush order.
   */
  method Import(paths: seq<string>, cfg: Config, alreadyImported: nat -> bool, attempts: nat -> nat -> Reply)
    returns (stats: Stats, flushed: seq<seq<string>>, flushedMeta: seq<seq<Metadata>>)
    ensures stats.scanned == |paths|
    ensures var t := TallyUpTo(Dispositions(paths, cfg, alreadyImported), |paths|);
            stats.total == t.total && stats.invalid == t.invalid
            && stats.alreadyExists == t.present && stats.skipped == t.present
    ensures Flatten(flushed) == QueuedUpTo(Dispositions(paths, cfg, alreadyImported), |paths|)
    ensures Flatten(flushedMeta) == QueuedMetaUpTo(Dispositions(paths, cfg, alreadyImported), |paths|)
    ensures forall k :: 0 <= k < |flushed| ==> 0 < |flushed[k]| <= ChunkSize(cfg)
    ensures forall k :: 0 <= k < |flushed| - 1 ==> |flushed[k]| == ChunkSize(cfg)
    ensures AllAligned(flushed, flushedMeta, ParserOf(cfg.sourcePath))
    ensures stats.success == SuccessSum(flushed, cfg, attempts)
    ensures stats.failed == FailedSum(flushed, cfg, attempts)
    ensures InvalidFiles(stats.errors) == InvalidUpTo(Dispositions(paths, cfg, alreadyImported), |paths|)
    ensures OtherErrors(stats.errors) == ReportedAll(flushed, cfg, attempts)
  {
    var run := Scan(paths, cfg, alreadyImported, attempts);
    stats, flushed, flushedMeta := Drain(run, cfg, attempts);
    QueuedParsed(paths, cfg, alreadyImported);
    Unflatten(flushed, flushedMeta, ParserOf(cfg.sourcePath));
  }
}
