/**
 * Webhook dispatch: choosing the webhooks an event goes to, sending it to each
 * of them with failures swallowed, and the one-off test send.
 */
module WebhookService {
  import opened Wrappers
  import opened Models
  import opened Schemas
  import opened Store

  /** The event names the service documents. Nothing checks events against this list. */
  const WEBHOOK_EVENTS: seq<string> := [
    "product.created",
    "product.updated",
    "product.deleted",
    "import.started",
    "import.completed",
    "import.failed"
  ]

  /** Every payload the application sends names a documented event, except the test payload, which carries the webhook's own. */
  lemma PayloadEventsAreDocumented(p: Payload)
    requires !p.WebhookTest?
    ensures p.Event() in WEBHOOK_EVENTS
  {
  }

  /** `filter(event_type == event, enabled == True)`: the ids of the webhooks an event goes to. */
  function Targets(hooks: map<nat, Webhook>, event: string): set<nat> {
    set id | id in hooks && hooks[id].eventType == event && hooks[id].enabled
  }

  /** `m` is the smallest element of `s`. */
  predicate IsLeast(m: nat, s: set<nat>) {
    m in s && forall x :: x in s ==> m <= x
  }

  /** The smallest element of a non-empty set of ids. */
  function Min(s: set<nat>): (m: nat)
    requires s != {}
    ensures IsLeast(m, s)
  {
    MinExists(s);
    var m :| IsLeast(m, s); m
  }

  lemma {:induction false} MinExists(s: set<nat>)
    requires s != {}
    ensures exists m :: IsLeast(m, s)
  {
    var y :| y in s;
    if s == {y} {
      assert IsLeast(y, s);
    } else {
      var rest := s - {y};
      MinExists(rest);
      var m :| IsLeast(m, rest);
      var best := if y < m then y else m;
      assert IsLeast(best, s) by {
        forall x | x in s
          ensures best <= x
        {
          if x != y {
            assert x in rest;
          }
        }
      }
    }
  }

  /** The ids of a set in ascending order: the order the model sends in. */
  function Ascending(s: set<nat>): (r: seq<nat>)
    ensures forall i :: 0 <= i < |r| ==> r[i] in s
    decreases |s|
  {
    if s == {} then []
    else
      var m := Min(s);
      [m] + Ascending(s - {m})
  }

  /** `Ascending` lists every id of the set once, in strictly increasing order. */
  lemma {:induction false} AscendingSorted(s: set<nat>)
    ensures var r := Ascending(s);
      && |r| == |s|
      && (forall x :: x in r <==> x in s)
      && (forall i, j :: 0 <= i < j < |r| ==> r[i] < r[j])
    decreases |s|
  {
    if s != {} {
      var m := Min(s);
      var rest := Ascending(s - {m});
      AscendingSorted(s - {m});
      assert Ascending(s) == [m] + rest;
      forall j | 0 <= j < |rest|
        ensures m < rest[j]
      {
        assert rest[j] in s - {m};
      }
    }
  }

  /** `_send_webhook`: one POST; a failure is caught and logged, so the attempt is recorded either way. */
  function SendWebhook(hookId: nat, url: string, payload: Payload, reachable: string -> bool): (d: Delivery)
    ensures d.hookId == hookId && d.url == url && d.payload == payload
    ensures d.delivered == reachable(url)
  {
    Delivery(hookId, url, payload, reachable(url))
  }

  /** What `trigger_webhooks` sends: the same payload to every target, once each, in ascending id order. */
  function Dispatch(hooks: map<nat, Webhook>, event: string, payload: Payload, reachable: string -> bool): seq<Delivery> {
    SendEach(hooks, Ascending(Targets(hooks, event)), payload, reachable)
  }

  /** Every id names a stored webhook. */
  predicate AllStored(hooks: map<nat, Webhook>, ids: seq<nat>) {
    forall i :: 0 <= i < |ids| ==> ids[i] in hooks
  }

  /** One send per id, in the order given. */
  function SendEach(hooks: map<nat, Webhook>, ids: seq<nat>, payload: Payload, reachable: string -> bool): (r: seq<Delivery>)
    requires AllStored(hooks, ids)
    ensures |r| == |ids|
  {
    if ids == [] then []
    else
      var last := ids[|ids| - 1];
      SendEach(hooks, ids[..|ids| - 1], payload, reachable) + [SendWebhook(last, hooks[last].url, payload, reachable)]
  }

  /** The `i`-th send goes to the `i`-th id. */
  lemma {:induction false} SendEachAt(hooks: map<nat, Webhook>, ids: seq<nat>, payload: Payload, reachable: string -> bool, i: nat)
    requires AllStored(hooks, ids)
    requires i < |ids|
    ensures SendEach(hooks, ids, payload, reachable)[i] == SendWebhook(ids[i], hooks[ids[i]].url, payload, reachable)
    decreases |ids|
  {
    if i < |ids| - 1 {
      var init := ids[..|ids| - 1];
      SendEachAt(hooks, init, payload, reachable, i);
      assert init[i] == ids[i];
    }
  }

  /**
   * Exactly the enabled webhooks registered for the event get the payload, one
   * send each: every send goes to a target with that target's url, and every
   * target gets one.
   */
  lemma DispatchSendsToExactlyTheTargets(hooks: map<nat, Webhook>, event: string, payload: Payload, reachable: string -> bool)
    ensures var r := Dispatch(hooks, event, payload, reachable);
      && |r| == |Targets(hooks, event)|
      && (forall i :: 0 <= i < |r| ==>
            r[i].hookId in hooks && hooks[r[i].hookId].eventType == event && hooks[r[i].hookId].enabled
            && r[i].url == hooks[r[i].hookId].url && r[i].payload == payload)
      && (forall i, j :: 0 <= i < j < |r| ==> r[i].hookId < r[j].hookId)
      && (forall id :: id in Targets(hooks, event) ==> exists i :: 0 <= i < |r| && r[i].hookId == id)
  {
    var ids := Ascending(Targets(hooks, event));
    var r := Dispatch(hooks, event, payload, reachable);
    AscendingSorted(Targets(hooks, event));
    forall i | 0 <= i < |r|
      ensures r[i] == SendWebhook(ids[i], hooks[ids[i]].url, payload, reachable)
    {
      SendEachAt(hooks, ids, payload, reachable, i);
    }
    forall id | id in Targets(hooks, event)
      ensures exists i :: 0 <= i < |r| && r[i].hookId == id
    {
      var i :| 0 <= i < |ids| && ids[i] == id;
      assert r[i].hookId == id;
    }
  }

  /** With no enabled webhook for the event, nothing is sent. */
  lemma NoTargetsNothingSent(hooks: map<nat, Webhook>, event: string, payload: Payload, reachable: string -> bool)
    requires forall id :: id in hooks ==> hooks[id].eventType != event || !hooks[id].enabled
    ensures Dispatch(hooks, event, payload, reachable) == []
  {
    assert Targets(hooks, event) == {};
  }

  /** The event is not checked against `WEBHOOK_EVENTS`: a webhook registered for any other name still receives it. */
  lemma UndocumentedEventIsStillSent(reachable: string -> bool)
    ensures var hooks := map[7 := Webhook(7, "http://example.test/hook", "custom.event", true)];
      var payload := WebhookTest("custom.event", true, Product(1, "x", "x", None, true));
      "custom.event" !in WEBHOOK_EVENTS && |Dispatch(hooks, "custom.event", payload, reachable)| == 1
  {
    var hooks := map[7 := Webhook(7, "http://example.test/hook", "custom.event", true)];
    assert Targets(hooks, "custom.event") == {7};
  }

  /** The sending half of `trigger_webhooks`: one `_send_webhook` per target id, in order. */
  method SendToEach(db: Store, hooks: map<nat, Webhook>, ids: seq<nat>, payload: Payload, reachable: string -> bool)
    requires AllStored(hooks, ids)
    modifies db`outbox
    ensures db.outbox == old(db.outbox) + SendEach(hooks, ids, payload, reachable)
  {
    var i := 0;
    while i < |ids|
      invariant 0 <= i <= |ids|
      invariant db.outbox == old(db.outbox) + SendEach(hooks, ids[..i], payload, reachable)
    {
      var d := SendWebhook(ids[i], hooks[ids[i]].url, payload, reachable);
      db.outbox := db.outbox + [d];
      assert ids[..i + 1][..i] == ids[..i];
      i := i + 1;
    }
    assert ids[..|ids|] == ids;
  }

  /**
   * `trigger_webhooks`: look up the targets, return early when there are none,
   * otherwise send to each. A send that fails is swallowed, so the call never fails.
   */
  method TriggerWebhooks(db: Store, event: string, payload: Payload, reachable: string -> bool)
    modifies db`outbox
    ensures db.outbox == old(db.outbox) + Dispatch(db.webhooks, event, payload, reachable)
  {
    var hooks := db.webhooks;
    var targets := Targets(hooks, event);
    if targets == {} {
      return;
    }
    var ids := Ascending(targets);
    SendToEach(db, hooks, ids, payload, reachable);
  }

  /** What the HTTP test call observed: a response, a timeout, or another error. */
  datatype PostOutcome =
    | Responded(statusCode: int, elapsed: real)
    | TimedOut
    | Errored(message: string, elapsed: real)

  /** The error text of a test call that exceeded the 5-second client timeout. */
  const TIMEOUT_MESSAGE := "Request timeout (> 5 seconds)"

  /** `test_webhook`: success with status code and time on a response, a fixed message and 5.0 s on a timeout. */
  function TestWebhook(outcome: PostOutcome): (r: WebhookTestResponse)
    ensures r.success <==> outcome.Responded?
    ensures r.statusCode.Some? <==> r.success
    ensures r.error.Some? <==> !r.success
    ensures outcome.Responded? ==> r.statusCode == Some(outcome.statusCode) && r.responseTime == Some(outcome.elapsed)
    ensures outcome.TimedOut? ==> r.error == Some(TIMEOUT_MESSAGE) && r.responseTime == Some(5.0)
    ensures outcome.Errored? ==> r.error == Some(outcome.message) && r.responseTime == Some(outcome.elapsed)
  {
    match outcome
    case Responded(code, t) => WebhookTestResponse(true, Some(code), None, Some(t))
    case TimedOut => WebhookTestResponse(false, None, Some(TIMEOUT_MESSAGE), Some(5.0))
    case Errored(msg, t) => WebhookTestResponse(false, None, Some(msg), Some(t))
  }

  /**
   * The reply tells what the test call observed, with one blind spot: a timeout
   * reads exactly like another error whose text is the timeout message and whose
   * time is 5.0 s.
   */
  lemma TestReplyIdentifiesOutcome(a: PostOutcome, b: PostOutcome)
    requires TestWebhook(a) == TestWebhook(b)
    ensures a == b || (a.TimedOut? && b == Errored(TIMEOUT_MESSAGE, 5.0)) || (b.TimedOut? && a == Errored(TIMEOUT_MESSAGE, 5.0))
  {
    var r := TestWebhook(a);
    if a.Responded? {
      assert b.Responded? && b.statusCode == a.statusCode && b.elapsed == a.elapsed;
    }
  }
}
