/**
 * The request and response bodies of the product and webhook endpoints, with
 * the field bounds and defaults their validation applies before a handler runs.
 */
module Schemas {
  import opened Wrappers
  import opened Text
  import opened Models

  /** An `HTTPException`: the status code and `detail` the client receives. */
  datatype HttpError = HttpError(status: int, detail: string)

  /** What FastAPI answers when an exception other than `HTTPException` escapes a handler. */
  const INTERNAL_SERVER_ERROR := HttpError(500, "Internal Server Error")

  /** `ProductCreate`: required sku and name, optional description, `active` defaulting to true. */
  datatype ProductCreate = ProductCreate(sku: string, name: string, description: Option<string>, active: bool)

  /** `min_length=1, max_length=255` on sku and `min_length=1, max_length=500` on name. */
  predicate ValidProductCreate(p: ProductCreate) {
    1 <= |p.sku| <= SKU_MAX && 1 <= |p.name| <= PRODUCT_NAME_MAX
  }

  /** A body that names only sku and name: description None, active true. */
  function ProductCreateWithDefaults(sku: string, name: string): (p: ProductCreate)
    ensures p.description == None && p.active
    ensures 1 <= |sku| <= SKU_MAX && 1 <= |name| <= PRODUCT_NAME_MAX ==> ValidProductCreate(p)
  {
    ProductCreate(sku, name, None, true)
  }

  /** The length bound counts characters, so a white-space-only sku passes it and strips to "". */
  lemma WhitespaceSkuPassesValidation()
    ensures ValidProductCreate(ProductCreateWithDefaults(" ", "n"))
    ensures Trim(" ") == ""
  {
  }

  /** `ProductUpdate`: every field optional; None means "leave as is". */
  datatype ProductUpdate = ProductUpdate(sku: Option<string>, name: Option<string>, description: Option<string>, active: Option<bool>)

  /** The bounds apply only to the fields that are present. */
  predicate ValidProductUpdate(u: ProductUpdate) {
    (u.sku.Some? ==> 1 <= |u.sku.value| <= SKU_MAX)
    && (u.name.Some? ==> 1 <= |u.name.value| <= PRODUCT_NAME_MAX)
  }

  /** `WebhookCreate`: required url and event type, `enabled` defaulting to true. */
  datatype WebhookCreate = WebhookCreate(url: string, eventType: string, enabled: bool)

  /** `min_length=1, max_length=2048` on url and `min_length=1, max_length=100` on the event type. */
  predicate ValidWebhookCreate(w: WebhookCreate) {
    1 <= |w.url| <= URL_MAX && 1 <= |w.eventType| <= EVENT_TYPE_MAX
  }

  /** A body that names only url and event type: enabled. */
  function WebhookCreateWithDefaults(url: string, eventType: string): (w: WebhookCreate)
    ensures w.enabled
    ensures 1 <= |url| <= URL_MAX && 1 <= |eventType| <= EVENT_TYPE_MAX ==> ValidWebhookCreate(w)
  {
    WebhookCreate(url, eventType, true)
  }

  /** `WebhookUpdate`: every field optional, with the same bounds when present. */
  datatype WebhookUpdate = WebhookUpdate(url: Option<string>, eventType: Option<string>, enabled: Option<bool>)

  predicate ValidWebhookUpdate(u: WebhookUpdate) {
    (u.url.Some? ==> 1 <= |u.url.value| <= URL_MAX)
    && (u.eventType.Some? ==> 1 <= |u.eventType.value| <= EVENT_TYPE_MAX)
  }

  /** `WebhookTestResponse`: only `success` is required; the rest default to None. */
  datatype WebhookTestResponse = WebhookTestResponse(
    success: bool,
    statusCode: Option<int>,
    error: Option<string>,
    responseTime: Option<real>)

  /** A response that names only `success`. */
  function TestResponseWithDefaults(success: bool): (r: WebhookTestResponse)
    ensures r.success == success && r.statusCode == None && r.error == None && r.responseTime == None
  {
    WebhookTestResponse(success, None, None, None)
  }
}
