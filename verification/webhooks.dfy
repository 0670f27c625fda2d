/**
 * The webhook endpoints: list, create, read, partial update, delete, and the
 * test send of a sample payload to one webhook.
 */
module WebhooksApi {
  import opened Wrappers
  import opened Models
  import opened Schemas
  import opened Store
  import opened WebhookService

  const WEBHOOK_NOT_FOUND := HttpError(404, "Webhook not found")

  /** The reply to a body that fails validation. */
  const VALIDATION_ERROR := HttpError(422, "Unprocessable Entity")

  /** The `webhooks` table and its serial counter, as one value. */
  datatype Hooks = Hooks(rows: map<nat, Webhook>, nextId: nat)

  ghost function HooksOf(db: Store): Hooks
    reads db`webhooks, db`nextWebhookId
  {
    Hooks(db.webhooks, db.nextWebhookId)
  }

  ghost predicate HooksValid(h: Hooks) {
    WebhooksValid(h.rows, h.nextId)
  }

  /** The webhooks with the given ids, in reverse order of the ids. */
  function Reversed(rows: map<nat, Webhook>, ids: seq<nat>): (r: seq<Webhook>)
    requires forall i :: 0 <= i < |ids| ==> ids[i] in rows
    ensures |r| == |ids|
    ensures forall i :: 0 <= i < |ids| ==> r[i] == rows[ids[|ids| - 1 - i]]
  {
    if ids == [] then [] else Reversed(rows, ids[1..]) + [rows[ids[0]]]
  }

  /** `GET /api/webhooks`: every webhook, newest (largest id, latest `created_at`) first. */
  function ListWebhooks(rows: map<nat, Webhook>): seq<Webhook> {
    Reversed(rows, Ascending(rows.Keys))
  }

  /** The list holds every stored webhook exactly once, strictly newest first. */
  lemma ListWebhooksSpec(h: Hooks)
    requires HooksValid(h)
    ensures var l := ListWebhooks(h.rows);
      && |l| == |h.rows|
      && (forall i :: 0 <= i < |l| ==> l[i].id in h.rows && h.rows[l[i].id] == l[i])
      && (forall i, j :: 0 <= i < j < |l| ==> l[i].id > l[j].id)
      && (forall id :: id in h.rows ==> h.rows[id] in l)
  {
    var ids := Ascending(h.rows.Keys);
    AscendingSorted(h.rows.Keys);
    assert |ids| == |h.rows| by {
      assert |h.rows.Keys| == |h.rows|;
    }
    ListedNewestFirst(h, ids);
    ListedCoversAll(h, ids);
  }

  /** Listing ids backwards lists the row of every id among them. */
  lemma ListedCoversAll(h: Hooks, ids: seq<nat>)
    requires forall i :: 0 <= i < |ids| ==> ids[i] in h.rows
    requires forall id :: id in h.rows ==> id in ids
    ensures forall id :: id in h.rows ==> h.rows[id] in Reversed(h.rows, ids)
  {
    var l := Reversed(h.rows, ids);
    forall id | id in h.rows
      ensures h.rows[id] in l
    {
      var j :| 0 <= j < |ids| && ids[j] == id;
      assert l[|ids| - 1 - j] == h.rows[id];
    }
  }

  /** Listing strictly ascending ids backwards gives stored rows, strictly newest first. */
  lemma ListedNewestFirst(h: Hooks, ids: seq<nat>)
    requires HooksValid(h)
    requires forall i :: 0 <= i < |ids| ==> ids[i] in h.rows
    requires forall i, j :: 0 <= i < j < |ids| ==> ids[i] < ids[j]
    ensures var l := Reversed(h.rows, ids);
      && (forall i :: 0 <= i < |l| ==> l[i].id in h.rows && h.rows[l[i].id] == l[i])
      && (forall i, j :: 0 <= i < j < |l| ==> l[i].id > l[j].id)
  {
  }

  /** `GET /api/webhooks/{id}`. */
  function GetWebhook(rows: map<nat, Webhook>, id: int): (r: Result<Webhook, HttpError>)
    ensures r.Err? <==> id !in rows
    ensures r.Err? ==> r.error == WEBHOOK_NOT_FOUND
    ensures r.Ok? ==> r.value == rows[id]
  {
    if id in rows then Ok(rows[id]) else Err(WEBHOOK_NOT_FOUND)
  }

  /** `POST /api/webhooks`: a new row with the next id and the body's fields. */
  function CreateOutcome(h: Hooks, body: WebhookCreate): (Result<Webhook, HttpError>, Hooks) {
    if !ValidWebhookCreate(body) then (Err(VALIDATION_ERROR), h)
    else
      var w := Webhook(h.nextId, body.url, body.eventType, body.enabled);
      (Ok(w), Hooks(h.rows[w.id := w], h.nextId + 1))
  }

  /**
   * A valid body is stored as given under a fresh id, and no other webhook
   * changes; an invalid one is refused and nothing changes.
   */
  lemma CreateOutcomeSpec(h: Hooks, body: WebhookCreate)
    requires HooksValid(h)
    ensures var (r, h') := CreateOutcome(h, body);
      && HooksValid(h')
      && (r.Err? <==> !ValidWebhookCreate(body))
      && (r.Err? ==> h' == h)
      && (r.Ok? ==>
            && r.value.id !in h.rows
            && r.value.url == body.url && r.value.eventType == body.eventType && r.value.enabled == body.enabled
            && h'.rows == h.rows[r.value.id := r.value])
  {
  }

  /** An enabled webhook is among the targets of its event as soon as it is created. */
  lemma CreatedWebhookIsATarget(h: Hooks, body: WebhookCreate)
    requires HooksValid(h) && ValidWebhookCreate(body) && body.enabled
    ensures var (r, h') := CreateOutcome(h, body);
      r.Ok? && r.value.id in Targets(h'.rows, body.eventType)
  {
  }

  /** `POST /api/webhooks`: insert, commit, return the stored row. */
  method CreateWebhook(db: Store, body: WebhookCreate) returns (r: Result<Webhook, HttpError>)
    requires HooksValid(HooksOf(db))
    modifies db`webhooks, db`nextWebhookId
    ensures HooksValid(HooksOf(db))
    ensures (r, HooksOf(db)) == CreateOutcome(old(HooksOf(db)), body)
  {
    if !ValidWebhookCreate(body) {
      return Err(VALIDATION_ERROR);
    }
    var w := Webhook(db.nextWebhookId, body.url, body.eventType, body.enabled);
    db.webhooks := db.webhooks[w.id := w];
    db.nextWebhookId := db.nextWebhookId + 1;
    return Ok(w);
  }

  /** The webhook with the body's non-None fields applied. */
  function Patched(w: Webhook, u: WebhookUpdate): Webhook {
    Webhook(w.id, u.url.GetOr(w.url), u.eventType.GetOr(w.eventType), u.enabled.GetOr(w.enabled))
  }

  /** `PUT /api/webhooks/{id}`: 404, or the row with the supplied fields replaced. */
  function UpdateOutcome(h: Hooks, id: int, u: WebhookUpdate): (Result<Webhook, HttpError>, Hooks) {
    if !ValidWebhookUpdate(u) then (Err(VALIDATION_ERROR), h)
    else if id !in h.rows then (Err(WEBHOOK_NOT_FOUND), h)
    else
      var w := Patched(h.rows[id], u);
      (Ok(w), Hooks(h.rows[id := w], h.nextId))
  }

  /**
   * An update of an unknown id answers 404 and changes nothing; otherwise the
   * supplied fields are replaced, the rest of the row and every other row stay.
   */
  lemma UpdateOutcomeSpec(h: Hooks, id: int, u: WebhookUpdate)
    requires HooksValid(h)
    ensures var (r, h') := UpdateOutcome(h, id, u);
      && HooksValid(h')
      && (r.Err? ==> h' == h)
      && (r == Err(WEBHOOK_NOT_FOUND) <==> ValidWebhookUpdate(u) && id !in h.rows)
      && (r.Ok? ==>
            && id in h.rows && r.value.id == id && h'.rows == h.rows[id := r.value]
            && r.value.url == (if u.url.Some? then u.url.value else h.rows[id].url)
            && r.value.eventType == (if u.eventType.Some? then u.eventType.value else h.rows[id].eventType)
            && r.value.enabled == (if u.enabled.Some? then u.enabled.value else h.rows[id].enabled))
  {
  }

  /** A body with no fields returns the webhook and changes nothing. */
  lemma EmptyUpdateChangesNothing(h: Hooks, id: int)
    requires id in h.rows
    ensures UpdateOutcome(h, id, WebhookUpdate(None, None, None)) == (Ok(h.rows[id]), h)
  {
    assert h.rows[id := h.rows[id]] == h.rows;
  }

  /** `PUT /api/webhooks/{id}`: look the row up, assign each supplied field, commit. */
  method UpdateWebhook(db: Store, id: int, u: WebhookUpdate) returns (r: Result<Webhook, HttpError>)
    requires HooksValid(HooksOf(db))
    modifies db`webhooks
    ensures HooksValid(HooksOf(db))
    ensures (r, HooksOf(db)) == UpdateOutcome(old(HooksOf(db)), id, u)
  {
    if !ValidWebhookUpdate(u) {
      return Err(VALIDATION_ERROR);
    }
    if id !in db.webhooks {
      return Err(WEBHOOK_NOT_FOUND);
    }
    var w := db.webhooks[id];
    if u.url.Some? {
      w := w.(url := u.url.value);
    }
    if u.eventType.Some? {
      w := w.(eventType := u.eventType.value);
    }
    if u.enabled.Some? {
      w := w.(enabled := u.enabled.value);
    }
    db.webhooks := db.webhooks[id := w];
    return Ok(w);
  }

  /** `DELETE /api/webhooks/{id}`: 404, or the table without that row. */
  function DeleteOutcome(h: Hooks, id: int): (Option<HttpError>, Hooks) {
    if id !in h.rows then (Some(WEBHOOK_NOT_FOUND), h)
    else (None, Hooks(h.rows - {id}, h.nextId))
  }

  /** A deleted webhook is gone, no event reaches it any more, and every other webhook stays. */
  lemma DeleteOutcomeSpec(h: Hooks, id: int, event: string)
    requires HooksValid(h)
    ensures var (e, h') := DeleteOutcome(h, id);
      && HooksValid(h')
      && (e.Some? <==> id !in h.rows)
      && (e.Some? ==> e.value == WEBHOOK_NOT_FOUND && h' == h)
      && id !in h'.rows && id !in Targets(h'.rows, event)
      && (forall other :: other in h.rows && other != id ==> other in h'.rows && h'.rows[other] == h.rows[other])
  {
  }

  /** `DELETE /api/webhooks/{id}`: remove the row, commit. */
  method DeleteWebhook(db: Store, id: int) returns (err: Option<HttpError>)
    requires HooksValid(HooksOf(db))
    modifies db`webhooks
    ensures HooksValid(HooksOf(db))
    ensures (err, HooksOf(db)) == DeleteOutcome(old(HooksOf(db)), id)
  {
    if id !in db.webhooks {
      return Some(WEBHOOK_NOT_FOUND);
    }
    db.webhooks := db.webhooks - {id};
    return None;
  }

  /** The sample product every test payload carries. */
  const SAMPLE_PRODUCT := Product(1, "TEST-SKU-001", "Test Product", Some("This is a test webhook event"), true)

  /** The test payload: the webhook's own event type, the test flag set, the sample product. */
  function TestPayload(w: Webhook): (p: Payload)
    ensures p.Event() == w.eventType && p.WebhookTest? && p.test
  {
    WebhookTest(w.eventType, true, SAMPLE_PRODUCT)
  }

  /**
   * `POST /api/webhooks/{id}/test`: 404 for an unknown id; otherwise one POST
   * of the test payload to the webhook's url, whether or not it is enabled,
   * answered with what the POST observed.
   */
  method TestWebhookEndpoint(db: Store, id: int, outcome: PostOutcome) returns (r: Result<WebhookTestResponse, HttpError>)
    modifies db`outbox
    ensures r.Err? <==> id !in db.webhooks
    ensures r.Err? ==> r.error == WEBHOOK_NOT_FOUND && db.outbox == old(db.outbox)
    ensures r.Ok? ==> r.value == TestWebhook(outcome)
    ensures r.Ok? ==>
      db.outbox == old(db.outbox) + [Delivery(id, db.webhooks[id].url, TestPayload(db.webhooks[id]), outcome.Responded?)]
  {
    if id !in db.webhooks {
      return Err(WEBHOOK_NOT_FOUND);
    }
    var w := db.webhooks[id];
    db.outbox := db.outbox + [Delivery(id, w.url, TestPayload(w), outcome.Responded?)];
    return Ok(TestWebhook(outcome));
  }

  /** The test send does not look at `enabled` or at the event list: a disabled webhook for any event name can be sent a test request. */
  lemma TestIgnoresEnabledAndEventList(w: Webhook)
    requires !w.enabled && w.eventType !in WEBHOOK_EVENTS
    ensures TestPayload(w).Event() == w.eventType
    ensures w.id !in Targets(map[w.id := w], w.eventType)
  {
  }
}
