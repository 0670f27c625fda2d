/**
 * The persisted records: the `products`, `upload_jobs` and `webhooks` tables,
 * their column bounds, nullability and defaults.
 */
module Models {
  import opened Wrappers
  import Text

  /** `String(255)` for `products.sku`. */
  const SKU_MAX: nat := 255
  /** `String(500)` for `products.name`. */
  const PRODUCT_NAME_MAX: nat := 500
  /** `String(500)` for `upload_jobs.filename`. */
  const FILENAME_MAX: nat := 500
  /** `String(2048)` for `webhooks.url`. */
  const URL_MAX: nat := 2048
  /** `String(100)` for `webhooks.event_type`. */
  const EVENT_TYPE_MAX: nat := 100
  /** `products.active` when the insert names no value. */
  const ACTIVE_DEFAULT := true

  /**
   * A `products` row. `sku` and `name` are NOT NULL, `description` is nullable.
   * `id` is the serial key; ids grow with every insert, so they also order rows
   * by creation (`created_at`).
   */
  datatype Product = Product(id: nat, sku: string, name: string, description: Option<string>, active: bool)

  /** The column lengths the database enforces on a product row. */
  predicate ProductFits(p: Product) {
    |p.sku| <= SKU_MAX && |p.name| <= PRODUCT_NAME_MAX
  }

  /**
   * The values `upload_jobs.status` takes. The column comment lists five of them;
   * the upload endpoint also writes `uploading`.
   */
  datatype JobStatus = Pending | Uploading | Uploaded | Processing | Completed | Failed {
    /** The string stored in the column and sent in progress snapshots. */
    function Name(): string {
      match this
      case Pending => "pending"
      case Uploading => "uploading"
      case Uploaded => "uploaded"
      case Processing => "processing"
      case Completed => "completed"
      case Failed => "failed"
    }

    /** `completed` and `failed` end a job and end a progress stream. */
    predicate IsTerminal() {
      Completed? || Failed?
    }
  }

  /** The statuses the column's own comment names: every one but `uploading`. */
  const DOCUMENTED_STATUSES: seq<string> := ["pending", "uploaded", "processing", "completed", "failed"]

  /** `status` when the insert names none. */
  const STATUS_DEFAULT := Pending

  /** Reads a stored status string back; None for strings no status writes. */
  function StatusFromName(s: string): (r: Option<JobStatus>)
    ensures r.Some? ==> r.value.Name() == s
  {
    if s == "pending" then Some(Pending)
    else if s == "uploading" then Some(Uploading)
    else if s == "uploaded" then Some(Uploaded)
    else if s == "processing" then Some(Processing)
    else if s == "completed" then Some(Completed)
    else if s == "failed" then Some(Failed)
    else None
  }

  /** Every status is read back from its own name: the six names are distinct. */
  lemma StatusNamesRoundTrip(st: JobStatus)
    ensures StatusFromName(st.Name()) == Some(st)
  {
  }

  /** An `upload_jobs` row. Counters are NOT NULL; `error_message` is nullable. */
  datatype UploadJob = UploadJob(
    id: string,
    filename: string,
    status: JobStatus,
    totalRows: int,
    processedRows: int,
    createdRows: int,
    updatedRows: int,
    errorMessage: Option<string>)

  /** A digit of PostgreSQL's `uuid` text input: `0-9`, `a-f` or `A-F`. */
  predicate IsHexDigit(c: char) {
    '0' <= c <= '9' || 'a' <= c <= 'f' || 'A' <= c <= 'F'
  }

  /** A digit of the `uuid` text output, which is lower case. */
  predicate IsLowerHexDigit(c: char) {
    '0' <= c <= '9' || 'a' <= c <= 'f'
  }

  /** A `uuid` is 128 bits: 32 hex digits. */
  const UUID_DIGITS: nat := 32

  /** The input may put one hyphen after every group of four digits but the last. */
  predicate HyphenMayFollow(n: nat) {
    n % 4 == 0 && 0 < n < UUID_DIGITS
  }

  /**
   * The digits of `t`, lower-cased, when `t` spells exactly the digits n+1..32
   * of a `uuid`: one hex digit at a time, with one optional hyphen after each
   * group of four but the last.
   */
  function UuidDigits(t: string, n: nat): (r: Option<string>)
    requires n <= UUID_DIGITS
    ensures r.Some? ==> |r.value| == UUID_DIGITS - n
    ensures r.Some? ==> forall i :: 0 <= i < |r.value| ==> IsLowerHexDigit(r.value[i])
    decreases UUID_DIGITS - n
  {
    if n == UUID_DIGITS then (if t == [] then Some([]) else None)
    else if t == [] || !IsHexDigit(t[0]) then None
    else
      var rest := if HyphenMayFollow(n + 1) && |t| > 1 && t[1] == '-' then t[2..] else t[1..];
      match UuidDigits(rest, n + 1)
      case None => None
      case Some(d) => Some([Text.LowerChar(t[0])] + d)
  }

  /** Digits `d`, the first of them digit n+1, written with a hyphen after each digit count in `hyphens`. */
  function Spell(d: string, n: nat, hyphens: set<nat>): string
    decreases |d|
  {
    if d == [] then [] else [d[0]] + (if n + 1 in hyphens then "-" else "") + Spell(d[1..], n + 1, hyphens)
  }

  /** The hyphens of the standard 8-4-4-4-12 form. */
  const STANDARD_HYPHENS: set<nat> := {8, 12, 16, 20}

  /** The text form PostgreSQL stores and prints, and Python's `str(uuid)`: 8-4-4-4-12 digits. */
  function Hyphenated(d: string): string {
    Spell(d, 0, STANDARD_HYPHENS)
  }

  /** The text inside the braces, when the input opens with one; `None` when the closing brace is missing. */
  function Unbraced(s: string): Option<string> {
    if |s| > 0 && s[0] == '{' then
      if |s| >= 2 && s[|s| - 1] == '}' then Some(s[1..|s| - 1]) else None
    else Some(s)
  }

  /** The lower-cased digits of a `uuid` spelling, or `None` when `s` spells none. */
  function CastDigits(s: string): Option<string> {
    match Unbraced(s)
    case None => None
    case Some(t) => UuidDigits(t, 0)
  }

  /**
   * A string compared with the `UUID` column `upload_jobs.id` is cast to
   * `uuid` by PostgreSQL: `None` when the cast fails (the query raises),
   * otherwise the standard form of the value. The input may be wrapped in
   * braces, use either case, and omit any of the hyphens.
   */
  function CanonicalUuid(s: string): Option<string> {
    match CastDigits(s)
    case None => None
    case Some(d) => Some(Hyphenated(d))
  }

  /** Every spelling of a digit sequence with allowed hyphens reads back as its lower-cased digits. */
  lemma {:induction false} SpellingReadsBack(d: string, n: nat, hyphens: set<nat>)
    requires n + |d| == UUID_DIGITS
    requires forall i :: 0 <= i < |d| ==> IsHexDigit(d[i])
    requires forall m :: m in hyphens ==> HyphenMayFollow(m)
    ensures UuidDigits(Spell(d, n, hyphens), n) == Some(Text.Lower(d))
    decreases |d|
  {
    if d != [] {
      var t := Spell(d, n, hyphens);
      var tail := Spell(d[1..], n + 1, hyphens);
      SpellingReadsBack(d[1..], n + 1, hyphens);
      if |d| > 1 {
        assert tail[0] == d[1];
      }
      assert Text.Lower(d) == [Text.LowerChar(d[0])] + Text.Lower(d[1..]);
    }
  }

  /** Lower-case hex digits are their own lower case. */
  lemma LowerHexIsLower(d: string)
    requires forall i :: 0 <= i < |d| ==> IsLowerHexDigit(d[i])
    ensures Text.Lower(d) == d
  {
  }

  /**
   * The cast accepts every spelling of a `uuid` (either case, any of the
   * hyphens, with or without braces), and all spellings of one value are
   * equal after it.
   */
  lemma EverySpellingCasts(d: string, hyphens: set<nat>)
    requires |d| == UUID_DIGITS && forall i :: 0 <= i < |d| ==> IsHexDigit(d[i])
    requires forall m :: m in hyphens ==> HyphenMayFollow(m)
    ensures CanonicalUuid(Spell(d, 0, hyphens)) == Some(Hyphenated(Text.Lower(d)))
    ensures CanonicalUuid("{" + Spell(d, 0, hyphens) + "}") == Some(Hyphenated(Text.Lower(d)))
  {
    var t := Spell(d, 0, hyphens);
    SpellingReadsBack(d, 0, hyphens);
    assert t[0] == d[0];
    assert Unbraced(t) == Some(t);
    var b := "{" + t + "}";
    assert b[1..|b| - 1] == t;
    assert Unbraced(b) == Some(t);
  }

  /** The standard form is a fixed point of the cast, so a stored id is found under its own text. */
  lemma CanonicalUuidIsStable(s: string)
    requires CanonicalUuid(s).Some?
    ensures CanonicalUuid(CanonicalUuid(s).value) == CanonicalUuid(s)
  {
    var d := CastDigits(s).value;
    assert CanonicalUuid(s) == Some(Hyphenated(d));
    Uuid4TextIsCanonical(d);
  }

  /** Python's `str(uuid.uuid4())`, the standard form of 32 lower-case digits, casts to itself. */
  lemma Uuid4TextIsCanonical(d: string)
    requires |d| == UUID_DIGITS && forall i :: 0 <= i < |d| ==> IsLowerHexDigit(d[i])
    ensures CanonicalUuid(Hyphenated(d)) == Some(Hyphenated(d))
  {
    LowerHexIsLower(d);
    assert forall i :: 0 <= i < |d| ==> IsHexDigit(d[i]);
    EverySpellingCasts(d, STANDARD_HYPHENS);
  }

  /** Text that is no spelling of a `uuid` fails the cast. */
  lemma NotAUuidFailsTheCast()
    ensures CanonicalUuid("not-a-uuid") == None
  {
    assert !IsHexDigit("not-a-uuid"[0]);
  }

  /** `UploadJob(id=..., filename=..., status=...)`: the four counters take their default 0 and there is no error. */
  function NewJob(id: string, filename: string, status: JobStatus): UploadJob {
    UploadJob(id, filename, status, 0, 0, 0, 0, None)
  }

  /** The column lengths the database enforces on a job row. */
  predicate JobFits(j: UploadJob) {
    |j.filename| <= FILENAME_MAX
  }

  /** A new job has the given id and status, counts nothing yet, has no error, and fits whenever its filename does. */
  lemma NewJobDefaults(id: string, filename: string, status: JobStatus)
    requires |filename| <= FILENAME_MAX
    ensures var j := NewJob(id, filename, status);
      JobFits(j) && j.id == id && j.status == status
      && j.totalRows == 0 && j.processedRows == 0 && j.createdRows == 0 && j.updatedRows == 0
      && j.errorMessage == None
  {
  }

  /** A `webhooks` row; `enabled` defaults to true. */
  datatype Webhook = Webhook(id: nat, url: string, eventType: string, enabled: bool)

  /** The column lengths the database enforces on a webhook row. */
  predicate WebhookFits(w: Webhook) {
    |w.url| <= URL_MAX && |w.eventType| <= EVENT_TYPE_MAX
  }
}
