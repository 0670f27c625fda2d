/**
 * The background import task: mark the job processing, announce the start,
 * read and count the staged file, run the batch import, mark the job completed
 * and announce it; on any error mark the job failed and report the failure; in
 * every case delete the staged file.
 */
module ImportTasks {
  import opened Wrappers
  import opened Models
  import opened Store
  import opened WebhookService
  import opened CsvProcessor

  /** The parts of the store the import task changes, as one value. */
  datatype World = World(
    catalog: Catalog,
    jobs: map<string, UploadJob>,
    published: seq<Snapshot>,
    outbox: seq<Delivery>)

  ghost function WorldOf(db: Store): World
    reads db`catalog, db`jobs, db`published, db`outbox
  {
    World(db.catalog, db.jobs, db.published, db.outbox)
  }

  /** The dictionary the import task returns when the import completes. */
  datatype Summary = Summary(jobId: string, totalRows: int, created: int, updated: int)

  /** How the import task ends: returning a summary, or raising. */
  datatype TaskOutcome =
    | Finished(summary: Summary)
    | Raised(error: ImportError)

  /**
   * The text of the CSV file, decoded and split into rows, or the text of the
   * exception (a `UnicodeDecodeError`, a `csv.Error`) when it does not decode or tokenise.
   */
  type Parser = seq<byte> -> Result<seq<RawRow>, string>

  /** The job marked failed with the error's text, when it exists. */
  function MarkFailed(jobs: map<string, UploadJob>, jobId: string, message: string): (r: map<string, UploadJob>)
    ensures r.Keys == jobs.Keys
    ensures jobId in jobs ==> r[jobId].status == Failed && r[jobId].errorMessage == Some(message)
    ensures forall id :: id in jobs && id != jobId ==> r[id] == jobs[id]
  {
    if jobId in jobs then jobs[jobId := jobs[jobId].(status := Failed, errorMessage := Some(message))] else jobs
  }

  /** The failure message the handler means to publish: zero counters, status failed, the error's text. */
  function FailedSnapshot(jobId: string, message: string): Snapshot {
    Snapshot(jobId, Failed, 0, 0, 0, 0, Some(message))
  }

  /**
   * The body of the import task's `try` block, from world `w`: what it leaves behind and
   * how it ends. `hooks` and `files` are the webhooks table and the staged files,
   * which the body does not change.
   */
  ghost function TryImport(
    w: World, hooks: map<nat, Webhook>, files: map<string, seq<byte>>,
    jobId: string, path: string, parse: Parser, reachable: string -> bool): (World, Result<Summary, ImportError>)
  {
    if jobId !in w.jobs then (w, Err(JobNotFound(jobId)))
    else
      var job := w.jobs[jobId];
      var w1 := w.(
        jobs := w.jobs[jobId := job.(status := Processing)],
        outbox := w.outbox + Dispatch(hooks, "import.started", ImportStarted(jobId, job.filename), reachable));
      if path !in files then (w1, Err(FileMissing(path)))
      else if parse(files[path]).Err? then (w1, Err(Unreadable(parse(files[path]).error)))
      else
        var rows := parse(files[path]).value;
        var jobs2 := w1.jobs[jobId := w1.jobs[jobId].(totalRows := CountCsvRows(rows))];
        var run := ImportRun(w.catalog, rows);
        var jobs3 := JobsAfter(jobs2, jobId, run.checkpoints);
        var pub3 := w.published + Announce(jobId, CountCsvRows(rows), run.snaps);
        var outcome := ImportOutcome(w.catalog, rows);
        if outcome.Err? then (World(run.cat, jobs3, pub3, w1.outbox), Err(outcome.error))
        else
          var done := jobs3[jobId].(status := Completed);
          var payload := ImportCompleted(jobId, done.filename, done.totalRows, done.createdRows, done.updatedRows);
          (World(run.cat, jobs3[jobId := done],
                 pub3 + [CompletedSnapshot(jobId, |Ingest(rows).kept|, run.tally)],
                 w1.outbox + Dispatch(hooks, "import.completed", payload, reachable)),
           Ok(Summary(jobId, done.totalRows, done.createdRows, done.updatedRows)))
  }

  /** The `except` block as evidently intended: mark failed, publish the failure with its text, announce it. */
  function Handled(w: World, hooks: map<nat, Webhook>, jobId: string, e: ImportError, reachable: string -> bool): World {
    World(
      w.catalog,
      MarkFailed(w.jobs, jobId, e.Message()),
      w.published + [FailedSnapshot(jobId, e.Message())],
      w.outbox + Dispatch(hooks, "import.failed", ImportFailed(jobId, e.Message()), reachable))
  }

  /** The whole task from world `w`: the `try` block, then the handler when it raised. */
  ghost function Task(
    w: World, hooks: map<nat, Webhook>, files: map<string, seq<byte>>,
    jobId: string, path: string, parse: Parser, reachable: string -> bool): (World, TaskOutcome)
  {
    var (w1, r) := TryImport(w, hooks, files, jobId, path, parse, reachable);
    if r.Ok? then (w1, Finished(r.value)) else (Handled(w1, hooks, jobId, r.error, reachable), Raised(r.error))
  }

  /** PostgreSQL's answer to any statement sent on a transaction an earlier error aborted. */
  const SESSION_ABORTED := "current transaction is aborted, commands ignored until end of transaction block"

  /** The jobs table the `except` block as written leaves, and the text of what it raises. */
  function HandledAsWritten(jobs: map<string, UploadJob>, jobId: string, e: ImportError): (map<string, UploadJob>, string) {
    if e.Database? then (jobs, SESSION_ABORTED)
    else (MarkFailed(jobs, jobId, e.Message()), PublishCallError(HandlerPublishArgs(jobId, e.Message())).value)
  }

  /** How the import task as written ends: returning a summary, or raising an exception with this text. */
  datatype TaskExit =
    | Returned(summary: Summary)
    | Propagated(message: string)

  /** The whole task as written: the `try` block, then the handler as written when it raised. */
  ghost function TaskAsWritten(
    w: World, hooks: map<nat, Webhook>, files: map<string, seq<byte>>,
    jobId: string, path: string, parse: Parser, reachable: string -> bool): (World, TaskExit)
  {
    var (w1, r) := TryImport(w, hooks, files, jobId, path, parse, reachable);
    if r.Ok? then (w1, Returned(r.value))
    else
      var (jobs2, message) := HandledAsWritten(w1.jobs, jobId, r.error);
      (w1.(jobs := jobs2), Propagated(message))
  }

  /** The import task as written and as corrected differ only when the `try` block raised. */
  lemma AsWrittenAgreesOnSuccess(
    w: World, hooks: map<nat, Webhook>, files: map<string, seq<byte>>,
    jobId: string, path: string, parse: Parser, reachable: string -> bool)
    ensures TaskAsWritten(w, hooks, files, jobId, path, parse, reachable).1.Returned?
      <==> Task(w, hooks, files, jobId, path, parse, reachable).1.Finished?
    ensures Task(w, hooks, files, jobId, path, parse, reachable).1.Finished? ==>
      && TaskAsWritten(w, hooks, files, jobId, path, parse, reachable).0 == Task(w, hooks, files, jobId, path, parse, reachable).0
      && TaskAsWritten(w, hooks, files, jobId, path, parse, reachable).1.summary
         == Task(w, hooks, files, jobId, path, parse, reachable).1.summary
  {
  }

  /**
   * A failing task as written never reports its failure: the progress channel and
   * the outbox are what the `try` block left, and what propagates is the TypeError
   * or the session error, never the original error's text.
   */
  lemma AsWrittenFailureIsNeverReported(
    w: World, hooks: map<nat, Webhook>, files: map<string, seq<byte>>,
    jobId: string, path: string, parse: Parser, reachable: string -> bool)
    requires TaskAsWritten(w, hooks, files, jobId, path, parse, reachable).1.Propagated?
    ensures var (w1, r) := TryImport(w, hooks, files, jobId, path, parse, reachable);
      var (w2, exit) := TaskAsWritten(w, hooks, files, jobId, path, parse, reachable);
      && r.Err?
      && w2.published == w1.published && w2.outbox == w1.outbox && w2.catalog == w1.catalog
      && (r.error.Database? ==> w2.jobs == w1.jobs && exit.message == SESSION_ABORTED)
      && (!r.error.Database? ==>
           w2.jobs == MarkFailed(w1.jobs, jobId, r.error.Message())
           && exit.message == "publish_progress() takes 6 positional arguments but 7 were given")
  {
    var (w1, r) := TryImport(w, hooks, files, jobId, path, parse, reachable);
    if !r.error.Database? {
      HandlerCallDoesNotBind(jobId, r.error.Message());
    }
  }

  /**
   * The stuck job: a file whose rows fit one batch and repeat a sku fails the
   * upsert; as written the job then stays `processing` with nothing published
   * after the start, while the corrected handler marks it failed with the
   * database's message and publishes that.
   */
  lemma RepeatedSkuStallsJobAsWritten(
    w: World, hooks: map<nat, Webhook>, files: map<string, seq<byte>>,
    jobId: string, path: string, parse: Parser, reachable: string -> bool)
    requires jobId in w.jobs && path in files && parse(files[path]).Ok?
    requires var rows := parse(files[path]).value;
      !Ingest(rows).crashed && |Ingest(rows).kept| <= BATCH_SIZE && !Distinct(Ingest(rows).kept)
    ensures var (w2, exit) := TaskAsWritten(w, hooks, files, jobId, path, parse, reachable);
      && exit == Propagated(SESSION_ABORTED)
      && jobId in w2.jobs && w2.jobs[jobId].status == Processing
      && w2.published == w.published && w2.catalog == w.catalog
    ensures var (w3, outcome) := Task(w, hooks, files, jobId, path, parse, reachable);
      && outcome.Raised? && outcome.error.Database?
      && jobId in w3.jobs && w3.jobs[jobId].status == Failed
      && w3.published == w.published + [FailedSnapshot(jobId, outcome.error.Message())]
  {
    var rows := parse(files[path]).value;
    RepeatedSkuFailsImport(w.catalog, rows);
    var run := ImportRun(w.catalog, rows);
    assert Announce(jobId, CountCsvRows(rows), run.snaps) == [];
    var (w1, r) := TryImport(w, hooks, files, jobId, path, parse, reachable);
    assert r == Err(ImportOutcome(w.catalog, rows).error) && r.error.Database?;
    assert w1.catalog == w.catalog && w1.published == w.published;
    assert jobId in w1.jobs && w1.jobs[jobId].status == Processing;
  }

  /**
   * With the corrected handler, a job the import task found always ends in a
   * terminal status, and a failed one carries the error's text.
   */
  lemma TaskEndsTerminal(
    w: World, hooks: map<nat, Webhook>, files: map<string, seq<byte>>,
    jobId: string, path: string, parse: Parser, reachable: string -> bool)
    requires jobId in w.jobs
    ensures var (w2, outcome) := Task(w, hooks, files, jobId, path, parse, reachable);
      && jobId in w2.jobs && w2.jobs[jobId].status.IsTerminal()
      && (outcome.Finished? <==> w2.jobs[jobId].status == Completed)
      && (outcome.Raised? ==> w2.jobs[jobId].errorMessage == Some(outcome.error.Message()))
  {
    var (w1, r) := TryImport(w, hooks, files, jobId, path, parse, reachable);
    assert jobId in w1.jobs;
  }

  /**
   * A task that fails before the first batch commits leaves the products table
   * unchanged; a later failure keeps the batches committed before it.
   */
  lemma EarlyFailureWritesNoProducts(
    w: World, hooks: map<nat, Webhook>, files: map<string, seq<byte>>,
    jobId: string, path: string, parse: Parser, reachable: string -> bool)
    requires jobId !in w.jobs || path !in files || parse(files[path]).Err?
    ensures Task(w, hooks, files, jobId, path, parse, reachable).0.catalog == w.catalog
    ensures Task(w, hooks, files, jobId, path, parse, reachable).1.Raised?
  {
  }

  /**
   * For a job as the upload creates it (zero counters), a completed import
   * reports created + updated equal to the rows it kept, never more than the
   * counted total, with both counts non-negative, and the products table grew by
   * exactly the created count.
   */
  lemma CompletedImportAccounts(
    w: World, hooks: map<nat, Webhook>, files: map<string, seq<byte>>,
    jobId: string, path: string, parse: Parser, reachable: string -> bool)
    requires CatalogValid(w.catalog)
    requires jobId in w.jobs && w.jobs[jobId].processedRows == 0
    requires w.jobs[jobId].createdRows == 0 && w.jobs[jobId].updatedRows == 0
    requires path in files && parse(files[path]).Ok?
    ensures var (w2, outcome) := Task(w, hooks, files, jobId, path, parse, reachable);
      var rows := parse(files[path]).value;
      outcome.Finished? ==>
        && outcome.summary.totalRows == |rows|
        && outcome.summary.created + outcome.summary.updated == |Ingest(rows).kept| <= |rows|
        && 0 <= outcome.summary.created && 0 <= outcome.summary.updated
        && |w2.catalog.rows| == |w.catalog.rows| + outcome.summary.created
  {
    var rows := parse(files[path]).value;
    var run := ImportRun(w.catalog, rows);
    ImportTotals(w.catalog, rows);
    ProcessedAtMostCounted(rows);
    CommitTracked(Start(w.catalog), Attempted(Ingest(rows)));
  }

  /** `process_csv_import`'s opening: look the job up, mark it processing, announce the start. */
  method StartJob(db: Store, jobId: string, reachable: string -> bool) returns (found: bool)
    requires db.Valid()
    modifies db`jobs, db`outbox
    ensures db.Valid()
    ensures found <==> jobId in old(db.jobs)
    ensures !found ==> db.jobs == old(db.jobs) && db.outbox == old(db.outbox)
    ensures found ==>
      var job := old(db.jobs)[jobId];
      && db.jobs == old(db.jobs)[jobId := job.(status := Processing)]
      && db.outbox == old(db.outbox) + Dispatch(db.webhooks, "import.started", ImportStarted(jobId, job.filename), reachable)
  {
    if jobId !in db.jobs {
      return false;
    }
    var job := db.jobs[jobId];
    db.jobs := db.jobs[jobId := job.(status := Processing)];
    TriggerWebhooks(db, "import.started", ImportStarted(jobId, job.filename), reachable);
    return true;
  }

  /** Store the counted total on the job. */
  method SetTotalRows(db: Store, jobId: string, total: int)
    requires db.Valid() && jobId in db.jobs
    modifies db`jobs
    ensures db.Valid()
    ensures db.jobs == old(db.jobs)[jobId := old(db.jobs)[jobId].(totalRows := total)]
  {
    db.jobs := db.jobs[jobId := db.jobs[jobId].(totalRows := total)];
  }

  /** Mark the job completed. */
  method MarkCompleted(db: Store, jobId: string) returns (done: UploadJob)
    requires JobsValid(db.jobs) && jobId in db.jobs
    modifies db`jobs
    ensures JobsValid(db.jobs)
    ensures done == old(db.jobs)[jobId].(status := Completed)
    ensures db.jobs == old(db.jobs)[jobId := done]
  {
    done := db.jobs[jobId].(status := Completed);
    db.jobs := db.jobs[jobId := done];
  }

  /** The `try` block of `process_csv_import`. */
  method TryBlock(db: Store, jobId: string, path: string, parse: Parser, reachable: string -> bool)
    returns (r: Result<Summary, ImportError>)
    requires db.Valid()
    modifies db`catalog, db`jobs, db`published, db`outbox
    ensures db.Valid()
    ensures (WorldOf(db), r) == TryImport(old(WorldOf(db)), db.webhooks, db.files, jobId, path, parse, reachable)
  {
    ghost var w := WorldOf(db);
    var found := StartJob(db, jobId, reachable);
    if !found {
      return Err(JobNotFound(jobId));
    }
    if path !in db.files {
      return Err(FileMissing(path));
    }
    var parsed := parse(db.files[path]);
    if parsed.Err? {
      return Err(Unreadable(parsed.error));
    }
    var rows := parsed.value;
    ghost var w1 := WorldOf(db);
    SetTotalRows(db, jobId, CountCsvRows(rows));
    ghost var jobs2 := db.jobs;
    assert jobs2[jobId].totalRows == CountCsvRows(rows);
    var res := ProcessCsvContent(db, jobId, rows);
    assert db.outbox == w1.outbox;
    if res.Err? {
      assert res == ImportOutcome(w.catalog, rows);
      assert db.catalog == ImportRun(w.catalog, rows).cat;
      assert db.jobs == JobsAfter(jobs2, jobId, ImportRun(w.catalog, rows).checkpoints);
      assert db.published == w.published + Announce(jobId, CountCsvRows(rows), ImportRun(w.catalog, rows).snaps);
      return Err(res.error);
    }
    var done := MarkCompleted(db, jobId);
    TriggerWebhooks(db, "import.completed",
      ImportCompleted(jobId, done.filename, done.totalRows, done.createdRows, done.updatedRows), reachable);
    return Ok(Summary(jobId, done.totalRows, done.createdRows, done.updatedRows));
  }

  /**
   * The `except` block as written. After a database error the session's
   * transaction is left aborted (sessions do not autocommit and nothing rolls
   * back), so the handler's first query raises the session error: the job keeps
   * its last checkpoint and status, and nothing is reported. After any other
   * error it marks the job failed, then calls `publish_progress` with seven
   * arguments although it takes six: the TypeError replaces the original error,
   * and neither the failure message nor the `import.failed` webhook goes out.
   */
  method FailureHandlerAsWritten(db: Store, jobId: string, e: ImportError) returns (raised: string)
    requires db.Valid()
    modifies db`jobs
    ensures db.Valid()
    ensures (db.jobs, raised) == HandledAsWritten(old(db.jobs), jobId, e)
    ensures e.Database? ==> db.jobs == old(db.jobs) && raised == SESSION_ABORTED
    ensures !e.Database? ==>
      && db.jobs == MarkFailed(old(db.jobs), jobId, e.Message())
      && raised == "publish_progress() takes 6 positional arguments but 7 were given"
    ensures db.published == old(db.published) && db.outbox == old(db.outbox)
  {
    if e.Database? {
      raised := SESSION_ABORTED;
      return;
    }
    MarkJobFailed(db, jobId, e.Message());
    HandlerCallDoesNotBind(jobId, e.Message());
    raised := PublishCallError(HandlerPublishArgs(jobId, e.Message())).value;
  }

  /**
   * The `except` block as evidently intended: roll back the aborted transaction
   * (the failed statement wrote nothing, earlier batches stay committed), mark the
   * job failed, publish the failure with its text, announce it.
   */
  method FailureHandler(db: Store, jobId: string, e: ImportError, reachable: string -> bool)
    requires db.Valid()
    modifies db`jobs, db`published, db`outbox
    ensures db.Valid()
    ensures WorldOf(db) == Handled(old(WorldOf(db)), db.webhooks, jobId, e, reachable)
  {
    ghost var w := WorldOf(db);
    MarkJobFailed(db, jobId, e.Message());
    var snapshot := BindPublishProgressWithError(HandlerPublishArgs(jobId, e.Message()));
    HandlerCallBindsWithError(jobId, e.Message());
    db.published := db.published + [snapshot.value];
    TriggerWebhooks(db, "import.failed", ImportFailed(jobId, e.Message()), reachable);
    assert WorldOf(db) == Handled(w, db.webhooks, jobId, e, reachable);
  }

  /** Mark the job failed with the error's text, when it exists. */
  method MarkJobFailed(db: Store, jobId: string, message: string)
    requires db.Valid()
    modifies db`jobs
    ensures db.Valid()
    ensures db.jobs == MarkFailed(old(db.jobs), jobId, message)
  {
    db.jobs := MarkFailed(db.jobs, jobId, message);
  }

  /**
   * The `finally` block: delete the staged file if it is still there. A failing
   * `os.remove` (`removeFails`) is logged and swallowed, leaving the file behind.
   */
  method Cleanup(db: Store, path: string, removeFails: bool)
    modifies db`files
    ensures db.files == if removeFails then old(db.files) else old(db.files) - {path}
  {
    if path in db.files && !removeFails {
      db.files := db.files - {path};
    }
  }

  /** `process_csv_import`, with the failure handler as evidently intended. */
  method ProcessCsvImport(db: Store, jobId: string, path: string, parse: Parser, reachable: string -> bool, removeFails: bool)
    returns (outcome: TaskOutcome)
    requires db.Valid()
    modifies db`catalog, db`jobs, db`published, db`outbox, db`files
    ensures db.Valid()
    ensures (WorldOf(db), outcome) == Task(old(WorldOf(db)), db.webhooks, old(db.files), jobId, path, parse, reachable)
    ensures db.files == if removeFails then old(db.files) else old(db.files) - {path}
  {
    var r := TryBlock(db, jobId, path, parse, reachable);
    if r.Ok? {
      outcome := Finished(r.value);
    } else {
      FailureHandler(db, jobId, r.error, reachable);
      outcome := Raised(r.error);
    }
    Cleanup(db, path, removeFails);
  }

  /** `process_csv_import` as written: the exception that propagates is the handler's, not the original. */
  method ProcessCsvImportAsWritten(db: Store, jobId: string, path: string, parse: Parser, reachable: string -> bool, removeFails: bool)
    returns (exit: TaskExit)
    requires db.Valid()
    modifies db`catalog, db`jobs, db`published, db`outbox, db`files
    ensures db.Valid()
    ensures (WorldOf(db), exit) == TaskAsWritten(old(WorldOf(db)), db.webhooks, old(db.files), jobId, path, parse, reachable)
    ensures db.files == if removeFails then old(db.files) else old(db.files) - {path}
  {
    var r := TryBlock(db, jobId, path, parse, reachable);
    if r.Ok? {
      exit := Returned(r.value);
    } else {
      var raised := FailureHandlerAsWritten(db, jobId, r.error);
      exit := Propagated(raised);
    }
    Cleanup(db, path, removeFails);
  }

  /** A positional argument of the `publish_progress` call. */
  datatype Arg = Str(s: string) | Num(i: int)

  /** The arguments the handler passes: job id, four zero counters, "failed", the error's text. */
  function HandlerPublishArgs(jobId: string, message: string): seq<Arg> {
    [Str(jobId), Num(0), Num(0), Num(0), Num(0), Str("failed"), Str(message)]
  }

  /**
   * Binding positional arguments to `publish_progress(job_id, processed, total,
   * created, updated, status)`: exactly six of the expected kinds, and a status
   * that names one.
   */
  function BindPublishProgress(args: seq<Arg>): (r: Option<Snapshot>)
    ensures r.Some? ==> |args| == 6
  {
    if |args| == 6 && args[0].Str? && args[1].Num? && args[2].Num? && args[3].Num? && args[4].Num? && args[5].Str?
       && StatusFromName(args[5].s).Some?
    then Some(Snapshot(args[0].s, StatusFromName(args[5].s).value, args[1].i, args[2].i, args[3].i, args[4].i, None))
    else None
  }

  /** The TypeError text for an argument count `publish_progress` does not take. */
  function PublishCallError(args: seq<Arg>): Option<string> {
    if |args| > 6 then Some("publish_progress() takes 6 positional arguments but " + NatToString(|args|) + " were given")
    else None
  }

  /** The same binding with a seventh, optional `error` parameter, as the handler's call needs. */
  function BindPublishProgressWithError(args: seq<Arg>): (r: Option<Snapshot>)
    ensures |args| == 6 ==> r == BindPublishProgress(args)
  {
    if |args| == 7 && args[6].Str? then
      match BindPublishProgress(args[..6])
      case Some(s) => Some(s.(error := Some(args[6].s)))
      case None => None
    else BindPublishProgress(args)
  }

  function NatToString(n: nat): string {
    if n < 10 then [['0', '1', '2', '3', '4', '5', '6', '7', '8', '9'][n]] else NatToString(n / 10) + NatToString(n % 10)
  }

  /** The handler's call cannot bind: seven arguments for six parameters, a TypeError. */
  lemma HandlerCallDoesNotBind(jobId: string, message: string)
    ensures BindPublishProgress(HandlerPublishArgs(jobId, message)) == None
    ensures PublishCallError(HandlerPublishArgs(jobId, message))
      == Some("publish_progress() takes 6 positional arguments but 7 were given")
  {
    assert |HandlerPublishArgs(jobId, message)| == 7;
    assert NatToString(7) == ['7'];
    assert "publish_progress() takes 6 positional arguments but " + ['7'] + " were given"
      == "publish_progress() takes 6 positional arguments but 7 were given";
  }

  /** With the optional `error` parameter the same call publishes the failure with its text. */
  lemma HandlerCallBindsWithError(jobId: string, message: string)
    ensures BindPublishProgressWithError(HandlerPublishArgs(jobId, message)) == Some(FailedSnapshot(jobId, message))
  {
    var args := HandlerPublishArgs(jobId, message);
    assert args[..6] == [Str(jobId), Num(0), Num(0), Num(0), Num(0), Str("failed")];
    assert StatusFromName("failed") == Some(Failed);
  }
}
