/**
 * The abstract state every operation works on: the three tables, the staged
 * upload files, the import task queue, the progress channel and the webhook outbox.
 */
module Store {
  import opened Wrappers
  import opened Text
  import opened Models

  newtype byte = b: int | 0 <= b < 256

  /**
   * The `products` table, keyed by sku, and the next serial id. Every write path
   * lower-cases the sku, so keys are lower case and the key of a row is its sku.
   */
  datatype Catalog = Catalog(rows: map<string, Product>, nextId: nat)

  /**
   * The table's constraints: each row is stored under its own (lower-case) sku,
   * fits its columns, and has a serial id below `nextId` that no other row shares.
   */
  ghost predicate CatalogValid(c: Catalog) {
    && (forall k :: k in c.rows ==>
          c.rows[k].sku == k && IsLower(k) && c.rows[k].id < c.nextId && ProductFits(c.rows[k]))
    && (forall k1, k2 :: k1 in c.rows && k2 in c.rows && k1 != k2 ==> c.rows[k1].id != c.rows[k2].id)
  }

  /** The unique index on `lower(sku)`: no two rows have skus that are equal after lower-casing. */
  lemma NoTwoSkusEqualIgnoringCase(c: Catalog, k1: string, k2: string)
    requires CatalogValid(c)
    requires k1 in c.rows && k2 in c.rows && k1 != k2
    ensures Lower(c.rows[k1].sku) != Lower(c.rows[k2].sku)
  {
    assert IsLower(k1) && IsLower(k2);
  }

  /** The database errors a statement can raise. */
  datatype DbError =
    | SkuTooLong
    | NameTooLong
    | RowAffectedTwice(sku: string)
  {
    function Message(): string {
      match this
      case SkuTooLong => "value too long for type character varying(255)"
      case NameTooLong => "value too long for type character varying(500)"
      case RowAffectedTwice(_) => "ON CONFLICT DO UPDATE command cannot affect row a second time"
    }
  }

  /** The exceptions an import run can raise, with the text `str(e)` gives. */
  datatype ImportError =
    | JobNotFound(jobId: string)
    | FileMissing(path: string)
    | Unreadable(reason: string)
    | FieldMissing(column: string)
    | Database(cause: DbError)
  {
    function Message(): string {
      match this
      case JobNotFound(id) => "Job " + id + " not found"
      case FileMissing(p) => "CSV file not found: " + p
      case Unreadable(reason) => reason
      case FieldMissing(_) => "'NoneType' object has no attribute 'strip'"
      case Database(e) => e.Message()
    }
  }

  /** The JSON bodies sent to webhooks; `Event()` is their `"event"` field. */
  datatype Payload =
    | ProductCreated(product: Product)
    | ProductUpdated(product: Product)
    | ProductDeleted(id: nat, sku: string, name: string)
    | ImportStarted(jobId: string, filename: string)
    | ImportCompleted(jobId: string, filename: string, totalRows: int, created: int, updated: int)
    | ImportFailed(jobId: string, error: string)
    | WebhookTest(event: string, test: bool, sample: Product)
  {
    function Event(): string {
      match this
      case ProductCreated(_) => "product.created"
      case ProductUpdated(_) => "product.updated"
      case ProductDeleted(_, _, _) => "product.deleted"
      case ImportStarted(_, _) => "import.started"
      case ImportCompleted(_, _, _, _, _) => "import.completed"
      case ImportFailed(_, _) => "import.failed"
      case WebhookTest(e, _, _) => e
    }
  }

  /** One POST to one webhook, and whether it got through (a failed one is only logged). */
  datatype Delivery = Delivery(hookId: nat, url: string, payload: Payload, delivered: bool)

  /** One progress message on a job's channel. */
  datatype Snapshot = Snapshot(
    jobId: string,
    status: JobStatus,
    processed: int,
    total: int,
    created: int,
    updated: int,
    error: Option<string>)

  /** The channel a job's progress is published on. */
  function ProgressChannel(jobId: string): string {
    "upload:" + jobId
  }

  /** An enqueued background import: job id and staged file path. */
  datatype Task = Task(jobId: string, path: string)

  /** The jobs table: each job is stored under its own id and fits its columns. */
  ghost predicate JobsValid(jobs: map<string, UploadJob>) {
    forall id :: id in jobs ==> jobs[id].id == id && JobFits(jobs[id])
  }

  /** The webhooks table: each webhook is stored under its own serial id, below the next one. */
  ghost predicate WebhooksValid(hooks: map<nat, Webhook>, nextId: nat) {
    forall id :: id in hooks ==> hooks[id].id == id && id < nextId && WebhookFits(hooks[id])
  }

  /** The whole world the model's operations read and change. */
  class Store {
    var catalog: Catalog
    var jobs: map<string, UploadJob>
    var webhooks: map<nat, Webhook>
    var nextWebhookId: nat
    /** Every webhook POST attempted, in order. */
    var outbox: seq<Delivery>
    /** Every progress message published, in order; `jobId` names the channel. */
    var published: seq<Snapshot>
    /** Staged upload files by path. */
    var files: map<string, seq<byte>>
    /** Background imports enqueued, in order. */
    var queue: seq<Task>

    ghost predicate Valid()
      reads this`catalog, this`jobs, this`webhooks, this`nextWebhookId
    {
      CatalogValid(catalog) && JobsValid(jobs) && WebhooksValid(webhooks, nextWebhookId)
    }

    constructor ()
      ensures Valid()
      ensures catalog == Catalog(map[], 0) && jobs == map[] && webhooks == map[] && nextWebhookId == 0
      ensures outbox == [] && published == [] && files == map[] && queue == []
    {
      catalog := Catalog(map[], 0);
      jobs := map[];
      webhooks := map[];
      nextWebhookId := 0;
      outbox := [];
      published := [];
      files := map[];
      queue := [];
    }
  }
}
