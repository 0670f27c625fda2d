/**
 * The upload endpoints: the CSV intake (type and size checks, job creation,
 * staging the file, enqueueing the import), the status lookup, and the
 * server-sent-events relay of a job's progress channel.
 */
module Upload {
  import opened Wrappers
  import opened Text
  import opened Models
  import opened Schemas
  import opened Store

  /** The largest upload accepted: 100 MiB. */
  const MAX_UPLOAD_BYTES: nat := 100 * 1024 * 1024
  /** The size check reads the upload 1 KiB at a time. */
  const SIZE_CHUNK: nat := 1024
  /** The file is staged 8 KiB at a time. */
  const SAVE_CHUNK: nat := 8192
  /** Where staged uploads are written. */
  const TEMP_DIR := "/tmp/uploads"

  /** The refusal of a file whose name does not end in `.csv`. */
  const NOT_CSV := HttpError(400, "Only CSV files are allowed")
  /** The refusal of an upload over the size limit. */
  const TOO_LARGE := HttpError(413, "File too large (max 100MB)")

  /** The reply to an accepted upload. */
  datatype UploadResponse = UploadResponse(jobId: string, status: string, message: string)

  function Accepted(jobId: string): UploadResponse {
    UploadResponse(jobId, "processing", "File uploaded successfully, processing in background")
  }

  /** `filename.lower().endswith('.csv')`. */
  predicate IsCsvFilename(name: string) {
    EndsWith(Lower(name), ".csv")
  }

  /** The type check ignores case: a name and its lower-cased form are judged alike. */
  lemma CsvCheckIgnoresCase(name: string)
    ensures IsCsvFilename(name) <==> IsCsvFilename(Lower(name))
  {
    LowerIsLower(name);
  }

  /** The staged path of job `jobId`'s upload. */
  function TempPath(jobId: string): (p: string)
    ensures |p| == |TEMP_DIR| + 1 + |jobId| + 4
    ensures p[|TEMP_DIR| + 1..|p| - 4] == jobId
  {
    TEMP_DIR + "/" + jobId + ".csv"
  }

  /** Distinct jobs are staged at distinct paths. */
  lemma TempPathInjective(a: string, b: string)
    requires TempPath(a) == TempPath(b)
    ensures a == b
  {
    var p := TempPath(a);
    assert a == p[|TEMP_DIR| + 1..|p| - 4];
  }

  function MinNat(a: nat, b: nat): nat {
    if a <= b then a else b
  }

  /**
   * The size check: reads the upload in 1 KiB chunks, adding up their lengths,
   * and stops as soon as the running total passes the limit.
   */
  method MeasureUpload(content: seq<byte>) returns (size: nat, tooLarge: bool)
    ensures tooLarge <==> |content| > MAX_UPLOAD_BYTES
    ensures !tooLarge ==> size == |content|
    ensures tooLarge ==> MAX_UPLOAD_BYTES < size <= MAX_UPLOAD_BYTES + SIZE_CHUNK && size <= |content|
  {
    size := 0;
    var pos := 0;
    while pos < |content|
      invariant pos == size <= |content|
      invariant size <= MAX_UPLOAD_BYTES
    {
      var chunk := content[pos..pos + MinNat(SIZE_CHUNK, |content| - pos)];
      size := size + |chunk|;
      pos := pos + |chunk|;
      if size > MAX_UPLOAD_BYTES {
        return size, true;
      }
    }
    return size, false;
  }

  /** The bytes on disk when the disk has room for `room` bytes: every whole chunk that fits. */
  function WrittenBeforeFull(room: nat): nat {
    room / SAVE_CHUNK * SAVE_CHUNK
  }

  lemma ChunkFloor(pos: nat, room: nat)
    requires pos % SAVE_CHUNK == 0 && pos <= room < pos + SAVE_CHUNK
    ensures WrittenBeforeFull(room) == pos
  {
    var q := pos / SAVE_CHUNK;
    assert pos == q * SAVE_CHUNK;
    assert room == q * SAVE_CHUNK + (room - pos);
  }

  /**
   * Stages `content` at `path` in 8 KiB chunks. `room` is the space left on the
   * disk (None: unlimited); a chunk that does not fit fails the write and leaves
   * the chunks written so far.
   */
  method SaveFile(db: Store, path: string, content: seq<byte>, room: Option<nat>) returns (ok: bool)
    modifies db`files
    ensures ok <==> room.None? || |content| <= room.value
    ensures ok ==> db.files == old(db.files)[path := content]
    ensures !ok ==> db.files == old(db.files)[path := content[..WrittenBeforeFull(room.value)]]
  {
    db.files := db.files[path := []];
    var pos := 0;
    while pos < |content|
      invariant pos <= |content|
      invariant pos < |content| ==> pos % SAVE_CHUNK == 0
      invariant room.Some? ==> pos <= room.value
      invariant db.files == old(db.files)[path := content[..pos]]
    {
      var chunk := content[pos..pos + MinNat(SAVE_CHUNK, |content| - pos)];
      if room.Some? && pos + |chunk| > room.value {
        ChunkFloor(pos, room.value);
        return false;
      }
      db.files := db.files[path := db.files[path] + chunk];
      assert content[..pos] + chunk == content[..pos + |chunk|];
      pos := pos + |chunk|;
    }
    assert content[..pos] == content;
    return true;
  }

  /** What can go wrong inside the intake's `try` block. */
  datatype Fault =
    | NoFault
    /** The disk has room for `room` more bytes; writing past them raises `message`. */
    | DiskFull(room: nat, message: string)
    /** Handing the import task to the broker raises `message`. */
    | EnqueueFails(message: string)

  /** The parts of the store the intake changes. */
  datatype Staging = Staging(jobs: map<string, UploadJob>, files: map<string, seq<byte>>, queue: seq<Task>)

  ghost function StagingOf(db: Store): Staging
    reads db`jobs, db`files, db`queue
  {
    Staging(db.jobs, db.files, db.queue)
  }

  /** The error the `try` block raises under `fault`, if any, for an upload of `size` bytes. */
  function TryFault(fault: Fault, size: nat): Option<string> {
    match fault
    case NoFault => None
    case DiskFull(room, m) => if size <= room then None else Some(m)
    case EnqueueFails(m) => Some(m)
  }

  /**
   * `POST /api/upload` from state `s`, with `jobId` the fresh uuid: the reply and
   * the new state. Inserting the job happens outside the `try`, so a clashing id
   * or an over-long filename escapes as an unhandled error.
   */
  function Intake(s: Staging, filename: string, content: seq<byte>, jobId: string, fault: Fault)
    : (Result<UploadResponse, HttpError>, Staging)
  {
    if !IsCsvFilename(filename) then (Err(NOT_CSV), s)
    else if |content| > MAX_UPLOAD_BYTES then (Err(TOO_LARGE), s)
    else if jobId in s.jobs || |filename| > FILENAME_MAX then (Err(INTERNAL_SERVER_ERROR), s)
    else
      var path := TempPath(jobId);
      match TryFault(fault, |content|)
      case Some(m) => (Err(HttpError(500, "Upload failed: " + m)), s.(files := s.files - {path}))
      case None =>
        (Ok(Accepted(jobId)),
         Staging(s.jobs[jobId := NewJob(jobId, filename, Uploaded)],
                 s.files[path := content],
                 s.queue + [Task(jobId, path)]))
  }

  /** Inserting a key and then deleting it is the same as deleting it. */
  lemma RemoveUpdated<K, V>(m: map<K, V>, k: K, v: V)
    ensures m[k := v] - {k} == m - {k}
    ensures k !in m ==> m - {k} == m
  {
  }

  /**
   * The intake's `try` block: stage the file, mark the job uploaded, enqueue the
   * import. Returns the error it raises, if any.
   */
  method TryStage(db: Store, jobId: string, path: string, content: seq<byte>, fault: Fault)
    returns (failure: Option<string>)
    requires jobId in db.jobs
    modifies db`jobs, db`files, db`queue
    ensures failure == TryFault(fault, |content|)
    ensures failure.None? ==>
      && db.jobs == old(db.jobs)[jobId := old(db.jobs)[jobId].(status := Uploaded)]
      && db.files == old(db.files)[path := content]
      && db.queue == old(db.queue) + [Task(jobId, path)]
    ensures failure.Some? ==>
      && db.jobs - {jobId} == old(db.jobs) - {jobId}
      && db.files - {path} == old(db.files) - {path}
      && db.queue == old(db.queue)
  {
    var room := if fault.DiskFull? then Some(fault.room) else None;
    var saved := SaveFile(db, path, content, room);
    if !saved {
      return Some(fault.message);
    }
    ghost var jobs0 := db.jobs;
    db.jobs := db.jobs[jobId := db.jobs[jobId].(status := Uploaded)];
    if fault.EnqueueFails? {
      RemoveUpdated(jobs0, jobId, db.jobs[jobId]);
      return Some(fault.message);
    }
    db.queue := db.queue + [Task(jobId, path)];
    return None;
  }

  /** The intake as the endpoint runs it, step by step. */
  method UploadCsv(db: Store, filename: string, content: seq<byte>, jobId: string, fault: Fault)
    returns (r: Result<UploadResponse, HttpError>)
    requires JobsValid(db.jobs)
    modifies db`jobs, db`files, db`queue
    ensures JobsValid(db.jobs)
    ensures (r, StagingOf(db)) == Intake(old(StagingOf(db)), filename, content, jobId, fault)
  {
    if !IsCsvFilename(filename) {
      return Err(NOT_CSV);
    }
    var size, tooLarge := MeasureUpload(content);
    if tooLarge {
      return Err(TOO_LARGE);
    }
    if jobId in db.jobs || |filename| > FILENAME_MAX {
      return Err(INTERNAL_SERVER_ERROR);
    }
    ghost var jobs0 := db.jobs;
    db.jobs := db.jobs[jobId := NewJob(jobId, filename, Uploading)];
    var path := TempPath(jobId);
    var failure := TryStage(db, jobId, path, content, fault);
    if failure.None? {
      assert db.jobs == jobs0[jobId := NewJob(jobId, filename, Uploaded)];
      return Ok(Accepted(jobId));
    }
    RemoveUpdated(jobs0, jobId, NewJob(jobId, filename, Uploading));
    db.jobs := db.jobs - {jobId};
    db.files := db.files - {path};
    return Err(HttpError(500, "Upload failed: " + failure.value));
  }

  /** A request that is not accepted leaves no job and no queued import behind, and no staged file of its own. */
  lemma RefusedUploadLeavesNoJob(s: Staging, filename: string, content: seq<byte>, jobId: string, fault: Fault)
    ensures var (r, s') := Intake(s, filename, content, jobId, fault);
      r.Err? ==> (s'.jobs == s.jobs && s'.queue == s.queue
                  && (s'.files == s.files || s'.files == s.files - {TempPath(jobId)}))
  {
  }

  /**
   * An upload is accepted exactly when it is a CSV file within the size limit,
   * its job can be inserted and nothing fails; then the job is recorded as
   * uploaded, the bytes are staged at its path, and one import of that path is queued.
   */
  lemma AcceptedUploadIsQueued(s: Staging, filename: string, content: seq<byte>, jobId: string, fault: Fault)
    ensures var (r, s') := Intake(s, filename, content, jobId, fault);
      r.Ok? <==> IsCsvFilename(filename) && |content| <= MAX_UPLOAD_BYTES && jobId !in s.jobs
                 && |filename| <= FILENAME_MAX && TryFault(fault, |content|).None?
    ensures var (r, s') := Intake(s, filename, content, jobId, fault);
      r.Ok? ==>
        && r.value.jobId == jobId
        && s'.jobs.Keys == s.jobs.Keys + {jobId}
        && s'.jobs[jobId].status == Uploaded && s'.jobs[jobId].filename == filename
        && s'.files[TempPath(jobId)] == content
        && s'.queue == s.queue + [Task(jobId, TempPath(jobId))]
  {
  }

  /** The limit is inclusive: an upload of exactly 100 MiB passes, one byte more is refused with 413. */
  lemma SizeLimitIsInclusive(s: Staging, filename: string, content: seq<byte>, jobId: string, fault: Fault)
    requires IsCsvFilename(filename)
    ensures |content| == MAX_UPLOAD_BYTES ==> Intake(s, filename, content, jobId, fault).0 != Err(TOO_LARGE)
    ensures |content| == MAX_UPLOAD_BYTES + 1 ==> Intake(s, filename, content, jobId, fault).0 == Err(TOO_LARGE)
  {
  }

  /** The reply says `processing` while the job row says `uploaded`: the worker has not started yet. */
  lemma ReplyAndRowStatusesDiffer(s: Staging, filename: string, content: seq<byte>, jobId: string, fault: Fault)
    requires Intake(s, filename, content, jobId, fault).0.Ok?
    ensures var (r, s') := Intake(s, filename, content, jobId, fault);
      r.value.status == Processing.Name() && s'.jobs[jobId].status.Name() == "uploaded"
  {
  }

  /** The refusal of a job id that casts to no stored job. */
  const JOB_NOT_FOUND := HttpError(404, "Job not found")

  /**
   * `GET /api/upload/{job_id}`: the job's row, or 404. The path parameter is
   * compared with the `UUID` column, so text that does not cast to `uuid`
   * makes the query raise, which escapes as a 500.
   */
  function GetUploadStatus(jobs: map<string, UploadJob>, jobId: string): (r: Result<UploadJob, HttpError>)
    ensures r == Err(INTERNAL_SERVER_ERROR) <==> CanonicalUuid(jobId).None?
    ensures r == Err(JOB_NOT_FOUND) <==> CanonicalUuid(jobId).Some? && CanonicalUuid(jobId).value !in jobs
    ensures r.Ok? ==> CanonicalUuid(jobId).Some? && r.value == jobs[CanonicalUuid(jobId).value]
    ensures r.Ok? && JobsValid(jobs) ==> r.value.id == CanonicalUuid(jobId).value
  {
    match CanonicalUuid(jobId)
    case None => Err(INTERNAL_SERVER_ERROR)
    case Some(id) => if id in jobs then Ok(jobs[id]) else Err(JOB_NOT_FOUND)
  }

  /**
   * After an accepted upload, polling its job finds it uploaded, under its own
   * filename, with nothing counted yet. The id is `str(uuid.uuid4())`, which is
   * its own standard form (`Uuid4TextIsCanonical`).
   */
  lemma AcceptedUploadIsVisible(s: Staging, filename: string, content: seq<byte>, jobId: string, fault: Fault)
    requires CanonicalUuid(jobId) == Some(jobId)
    requires Intake(s, filename, content, jobId, fault).0.Ok?
    ensures var st := GetUploadStatus(Intake(s, filename, content, jobId, fault).1.jobs, jobId);
      st.Ok? && st.value == NewJob(jobId, filename, Uploaded) && st.value.processedRows == 0
  {
  }

  /** A stored job is found under every spelling of its id: either case, any hyphens, with or without braces. */
  lemma OtherSpellingsFindTheJob(jobs: map<string, UploadJob>, d: string, hyphens: set<nat>)
    requires |d| == UUID_DIGITS && forall i :: 0 <= i < |d| ==> IsHexDigit(d[i])
    requires forall m :: m in hyphens ==> HyphenMayFollow(m)
    requires Hyphenated(Lower(d)) in jobs
    ensures GetUploadStatus(jobs, Spell(d, 0, hyphens)) == Ok(jobs[Hyphenated(Lower(d))])
    ensures GetUploadStatus(jobs, "{" + Spell(d, 0, hyphens) + "}") == Ok(jobs[Hyphenated(Lower(d))])
  {
    EverySpellingCasts(d, hyphens);
  }

  /** A job id that is not a `uuid` gets a 500, whatever the table holds. */
  lemma MalformedJobIdIsServerError(jobs: map<string, UploadJob>)
    ensures GetUploadStatus(jobs, "not-a-uuid") == Err(INTERNAL_SERVER_ERROR)
  {
    NotAUuidFailsTheCast();
  }

  /**
   * The stream subscribes to the channel named with the path parameter as
   * given, while progress is published under the stored id: a job requested
   * under another spelling of its id is found, but its stream hears nothing.
   */
  lemma OtherSpellingStreamsAnotherChannel(jobId: string)
    requires CanonicalUuid(jobId).Some? && jobId != CanonicalUuid(jobId).value
    ensures ProgressChannel(jobId) != ProgressChannel(CanonicalUuid(jobId).value)
  {
    var k := CanonicalUuid(jobId).value;
    assert ProgressChannel(jobId)[|"upload:"|..] == jobId;
    assert ProgressChannel(k)[|"upload:"|..] == k;
  }

  /** What one `get_message` poll of the subscription gives. */
  datatype Poll =
    /** Nothing arrived within the timeout. */
    | Timeout
    /** A pub/sub message of kind `kind` (`subscribe`, `message`, ...) carrying a progress snapshot. */
    | Received(kind: string, snapshot: Snapshot)
    /** The poll raised (the connection to the broker broke) with `error`. */
    | Broken(error: string)

  /** One server-sent event. */
  datatype SseEvent =
    | Data(snapshot: Snapshot)
    /** `{"status": "error", "error": "Stream error"}`. */
    | StreamError

  /** How a stream ends: closed, still waiting for messages, or aborted by an exception. */
  datatype RelayEnd = Closed | Waiting | Aborted(error: string)

  /** The events sent over the polls seen so far, and how the stream stands after them. */
  datatype Relayed = Relayed(events: seq<SseEvent>, end: RelayEnd)

  /** A poll that forwards an event. */
  predicate IsMessage(p: Poll) {
    p.Received? && p.kind == "message"
  }

  /**
   * The event generator's loop over `polls`: forward every `message`, stop after
   * a terminal status; a broken poll sends the stream-error event and closes.
   */
  function Relay(polls: seq<Poll>): Relayed
    decreases |polls|
  {
    if polls == [] then Relayed([], Waiting)
    else
      var p := polls[0];
      if p.Broken? then Relayed([StreamError], Closed)
      else if !IsMessage(p) then Relay(polls[1..])
      else if p.snapshot.status.IsTerminal() then Relayed([Data(p.snapshot)], Closed)
      else
        var rest := Relay(polls[1..]);
        rest.(events := [Data(p.snapshot)] + rest.events)
  }

  /** The error the `except` clause raises: it calls a `logger` that its scope never defines. */
  const UNDEFINED_LOGGER := "name 'logger' is not defined"

  /**
   * The same loop as written: a broken poll enters the `except` clause, whose
   * first statement raises, so the error event is never sent and the stream aborts.
   */
  function RelayAsWritten(polls: seq<Poll>): Relayed
    decreases |polls|
  {
    if polls == [] then Relayed([], Waiting)
    else
      var p := polls[0];
      if p.Broken? then Relayed([], Aborted(UNDEFINED_LOGGER))
      else if !IsMessage(p) then RelayAsWritten(polls[1..])
      else if p.snapshot.status.IsTerminal() then Relayed([Data(p.snapshot)], Closed)
      else
        var rest := RelayAsWritten(polls[1..]);
        rest.(events := [Data(p.snapshot)] + rest.events)
  }

  /** A connection that breaks on the first poll: the intended stream reports it, the written one aborts silently. */
  lemma BrokenPollAbortsAsWritten(e: string)
    ensures RelayAsWritten([Broken(e)]) == Relayed([], Aborted(UNDEFINED_LOGGER))
    ensures Relay([Broken(e)]) == Relayed([StreamError], Closed)
  {
  }

  /** When no poll breaks, the two agree. */
  lemma {:induction false} RelayAsWrittenAgreesUnbroken(polls: seq<Poll>)
    requires forall i :: 0 <= i < |polls| ==> !polls[i].Broken?
    ensures RelayAsWritten(polls) == Relay(polls)
    decreases |polls|
  {
    if polls != [] {
      RelayAsWrittenAgreesUnbroken(polls[1..]);
    }
  }

  /** The snapshots of the `message` polls, in order. */
  function Messages(polls: seq<Poll>): (r: seq<Snapshot>)
    ensures |r| <= |polls|
  {
    if polls == [] then []
    else (if IsMessage(polls[0]) then [polls[0].snapshot] else []) + Messages(polls[1..])
  }

  /** The snapshots up to and including the first terminal one (all of them when none is terminal). */
  function ThroughFirstTerminal(snaps: seq<Snapshot>): seq<Snapshot> {
    if snaps == [] then []
    else if snaps[0].status.IsTerminal() then [snaps[0]]
    else [snaps[0]] + ThroughFirstTerminal(snaps[1..])
  }

  /** Some snapshot in `snaps` is terminal. */
  predicate HasTerminal(snaps: seq<Snapshot>) {
    exists i :: 0 <= i < |snaps| && snaps[i].status.IsTerminal()
  }

  function AsEvents(snaps: seq<Snapshot>): (r: seq<SseEvent>)
    ensures |r| == |snaps|
    ensures forall i :: 0 <= i < |snaps| ==> r[i] == Data(snaps[i])
  {
    if snaps == [] then [] else [Data(snaps[0])] + AsEvents(snaps[1..])
  }

  /**
   * Over an unbroken connection the stream forwards exactly the messages up to
   * and including the first terminal snapshot, and closes exactly when one arrived.
   */
  lemma {:induction false} RelayForwardsThroughTerminal(polls: seq<Poll>)
    requires forall i :: 0 <= i < |polls| ==> !polls[i].Broken?
    ensures Relay(polls).events == AsEvents(ThroughFirstTerminal(Messages(polls)))
    ensures Relay(polls).end == Closed <==> HasTerminal(Messages(polls))
    ensures Relay(polls).end != Closed ==> Relay(polls).end == Waiting
    decreases |polls|
  {
    if polls != [] {
      var p := polls[0];
      var ms := Messages(polls);
      RelayForwardsThroughTerminal(polls[1..]);
      var tail := Messages(polls[1..]);
      if !IsMessage(p) {
        assert ms == tail;
      } else {
        assert ms == [p.snapshot] + tail;
        assert ms[0] == p.snapshot && ms[1..] == tail;
        if !p.snapshot.status.IsTerminal() {
          assert HasTerminal(ms) <==> HasTerminal(tail) by {
            if HasTerminal(ms) {
              var i :| 0 <= i < |ms| && ms[i].status.IsTerminal();
              assert tail[i - 1] == ms[i];
            }
            if HasTerminal(tail) {
              var i :| 0 <= i < |tail| && tail[i].status.IsTerminal();
              assert ms[i + 1] == tail[i];
            }
          }
        } else {
          assert HasTerminal(ms) by { assert ms[0].status.IsTerminal(); }
        }
      }
    }
  }

  /** Once the stream has closed, later polls change nothing: nothing is sent after a terminal snapshot. */
  lemma {:induction false} ClosedStreamIgnoresLaterPolls(polls: seq<Poll>, later: seq<Poll>)
    requires Relay(polls).end == Closed
    ensures Relay(polls + later) == Relay(polls)
    decreases |polls|
  {
    if polls != [] {
      assert (polls + later)[0] == polls[0];
      assert (polls + later)[1..] == polls[1..] + later;
      var p := polls[0];
      if !p.Broken? && (!IsMessage(p) || !p.snapshot.status.IsTerminal()) {
        ClosedStreamIgnoresLaterPolls(polls[1..], later);
      }
    }
  }

  /** Every event but the last is a non-terminal snapshot: the stream never goes on past an end. */
  lemma {:induction false} OnlyTheLastEventEnds(polls: seq<Poll>)
    ensures var ev := Relay(polls).events;
      forall i :: 0 <= i < |ev| - 1 ==> ev[i].Data? && !ev[i].snapshot.status.IsTerminal()
    ensures Relay(polls).end == Closed <==>
      (var ev := Relay(polls).events; |ev| > 0 && (ev[|ev| - 1].StreamError? || ev[|ev| - 1].snapshot.status.IsTerminal()))
    decreases |polls|
  {
    if polls != [] {
      var p := polls[0];
      if !p.Broken? && IsMessage(p) && !p.snapshot.status.IsTerminal() {
        OnlyTheLastEventEnds(polls[1..]);
        var rest := Relay(polls[1..]).events;
        var ev := Relay(polls).events;
        assert ev == [Data(p.snapshot)] + rest;
        forall i | 0 <= i < |ev| - 1
          ensures ev[i].Data? && !ev[i].snapshot.status.IsTerminal()
        {
          if i > 0 {
            assert ev[i] == rest[i - 1];
          }
        }
      } else if !p.Broken? && !IsMessage(p) {
        OnlyTheLastEventEnds(polls[1..]);
      }
    }
  }

  /**
   * A client that connects after the job's last message was published sees
   * only timeouts: it is sent nothing and the stream waits indefinitely.
   */
  lemma {:induction false} LateSubscriberWaits(polls: seq<Poll>)
    requires forall i :: 0 <= i < |polls| ==> polls[i].Timeout?
    ensures Relay(polls) == Relayed([], Waiting)
    decreases |polls|
  {
    if polls != [] {
      LateSubscriberWaits(polls[1..]);
    }
  }

  /** The event generator's loop, over the polls it makes. */
  method EventGenerator(polls: seq<Poll>) returns (r: Relayed)
    ensures r == Relay(polls)
  {
    var events: seq<SseEvent> := [];
    var i := 0;
    while i < |polls|
      invariant i <= |polls|
      invariant Relay(polls) == Relay(polls[i..]).(events := events + Relay(polls[i..]).events)
    {
      var p := polls[i];
      assert polls[i..][1..] == polls[i + 1..];
      if p.Broken? {
        return Relayed(events + [StreamError], Closed);
      }
      if IsMessage(p) {
        events := events + [Data(p.snapshot)];
        if p.snapshot.status.IsTerminal() {
          return Relayed(events, Closed);
        }
      }
      i := i + 1;
    }
    return Relayed(events, Waiting);
  }

  /**
   * `GET /api/upload/{job_id}/stream`: the job lookup of `GetUploadStatus`
   * before subscribing, otherwise the relay of what the subscription to
   * `ProgressChannel(jobId)`, named with the parameter as given, receives.
   */
  method StreamProgress(db: Store, jobId: string, polls: seq<Poll>) returns (r: Result<Relayed, HttpError>)
    ensures r == Err(INTERNAL_SERVER_ERROR) <==> CanonicalUuid(jobId).None?
    ensures r == Err(JOB_NOT_FOUND) <==> CanonicalUuid(jobId).Some? && CanonicalUuid(jobId).value !in db.jobs
    ensures r.Ok? ==> CanonicalUuid(jobId).Some? && CanonicalUuid(jobId).value in db.jobs && r.value == Relay(polls)
  {
    var found := GetUploadStatus(db.jobs, jobId);
    if found.Err? {
      return Err(found.error);
    }
    var relayed := EventGenerator(polls);
    return Ok(relayed);
  }
}
