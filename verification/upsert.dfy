/**
 * `create_item`: send a create request; on a 409 conflict, turn the same body
 * object into an update body in place and send an update request.
 *
 * The catalog service is a parameter: a function answering the last request
 * of the sequence of requests sent so far, so that it may depend on history.
 */
module Upsert {
  import opened Exceptions
  import opened Bodies

  datatype Endpoint = Categories | Items | Variants

  datatype Request =
    | Create(endpoint: Endpoint, body: BodyValue)
    | Update(endpoint: Endpoint, id: string, body: BodyValue)

  /** What the service answers: success, or an `ApiException` with an HTTP status. */
  datatype Response = Success | Failure(status: int)

  type Service = seq<Request> -> Response

  /** What the importer does that can be observed: requests sent and lines printed. */
  datatype Event = Sent(request: Request) | Printed(line: string)

  /** The status of "already exists". */
  const Conflict: int := 409

  /** The requests among the events, in order. */
  function Requests(events: seq<Event>): seq<Request>
    decreases |events|
  {
    if events == [] then []
    else (if events[0].Sent? then [events[0].request] else []) + Requests(events[1..])
  }

  lemma {:induction false} RequestsAppend(a: seq<Event>, b: seq<Event>)
    ensures Requests(a + b) == Requests(a) + Requests(b)
    decreases |a|
  {
    if a == [] {
      assert a + b == b;
    } else {
      assert (a + b)[0] == a[0];
      assert (a + b)[1..] == a[1..] + b;
      RequestsAppend(a[1..], b);
    }
  }

  predicate IsCreate(e: Event) {
    e.Sent? && e.request.Create?
  }

  /** The create requests among the events, in order. */
  function Creates(events: seq<Event>): seq<Request>
    decreases |events|
  {
    if events == [] then []
    else (if IsCreate(events[0]) then [events[0].request] else []) + Creates(events[1..])
  }

  lemma {:induction false} CreatesAppend(a: seq<Event>, b: seq<Event>)
    ensures Creates(a + b) == Creates(a) + Creates(b)
    decreases |a|
  {
    if a == [] {
      assert a + b == b;
    } else {
      assert (a + b)[0] == a[0];
      assert (a + b)[1..] == a[1..] + b;
      CreatesAppend(a[1..], b);
    }
  }

  /** The three lines `create_item` prints for one object differ from one another. */
  lemma DistinctLines(objectName: string)
    ensures objectName + " created" != objectName + " updated"
    ensures objectName + " already exists" != objectName + " updated"
    ensures objectName + " already exists" != objectName + " created"
  {
    assert (objectName + " created")[|objectName| + 1] == 'c';
    assert (objectName + " updated")[|objectName| + 1] == 'u';
  }

  /** The events and the outcome of one call of `create_item`. */
  datatype Attempt = Attempt(events: seq<Event>, outcome: Outcome)

  /**
   * `create_item(request, body, objectName, update_request, item_id)`, where
   * `update` is `Some(item_id)` exactly when an update request is supplied.
   */
  function Upsert(service: Service, sent: seq<Request>, endpoint: Endpoint, b: BodyValue,
                  objectName: string, update: Option<string>): Attempt
  {
    var create := Create(endpoint, b);
    match service(sent + [create])
    case Success => Attempt([Sent(create), Printed(objectName + " created")], Done)
    case Failure(status) =>
      if status != Conflict then Attempt([Sent(create)], Raised(ApiException(status)))
      else
        var found := [Sent(create), Printed(objectName + " already exists")];
        match update
        case None => Attempt(found, Done)
        case Some(id) =>
          match Reshaped(b, id)
          case Err(e) => Attempt(found, Raised(e))
          case Ok(u) =>
            var request := Update(endpoint, id, u);
            match service(sent + [create, request])
            case Success => Attempt(found + [Sent(request), Printed(objectName + " updated")], Done)
            case Failure(s) => Attempt(found + [Sent(request)], Raised(ApiException(s)))
  }

  /**
   * What one call of `create_item` does: it sends the create first and no
   * other create; on success it prints "created"; on a status other than 409
   * it re-raises with nothing printed; on 409 it prints "already exists" and
   * sends an update exactly when an update id is supplied and the body
   * reshapes, raising the reshaping's `KeyError` otherwise; it prints
   * "updated" exactly when that update succeeds, and re-raises the update's
   * failure.
   */
  lemma UpsertOutcomes(service: Service, sent: seq<Request>, endpoint: Endpoint, b: BodyValue,
                       objectName: string, update: Option<string>, a: Attempt)
    requires a == Upsert(service, sent, endpoint, b, objectName, update)
    ensures |a.events| >= 1 && a.events[0] == Sent(Create(endpoint, b))
    ensures forall i :: 1 <= i < |a.events| ==> !IsCreate(a.events[i])
    // created: one line, no update
    ensures service(sent + [Create(endpoint, b)]) == Success ==>
      a.outcome == Done && a.events == [Sent(Create(endpoint, b)), Printed(objectName + " created")]
    // any other failure than a conflict: re-raised, nothing printed
    ensures service(sent + [Create(endpoint, b)]).Failure? &&
            service(sent + [Create(endpoint, b)]).status != Conflict ==>
      a.outcome == Raised(ApiException(service(sent + [Create(endpoint, b)]).status)) &&
      a.events == [Sent(Create(endpoint, b))]
    // conflict: "already exists", then the update if one is supplied
    ensures service(sent + [Create(endpoint, b)]) == Failure(Conflict) ==>
      |a.events| >= 2 && a.events[1] == Printed(objectName + " already exists") &&
      (|a.events| > 2 <==> update.Some? && Reshaped(b, update.value).Ok?) &&
      (|a.events| > 2 ==> a.events[2] == Sent(Update(endpoint, update.value, Reshaped(b, update.value).value)))
    ensures service(sent + [Create(endpoint, b)]) == Failure(Conflict) && update.None? ==> a.outcome == Done
    // the body does not reshape: the `KeyError` of the failing pop is raised
    ensures service(sent + [Create(endpoint, b)]) == Failure(Conflict) && update.Some? &&
            Reshaped(b, update.value).Err? ==>
      a.outcome == Raised(Reshaped(b, update.value).error) && |a.events| == 2
    // the update was sent: its answer decides between "updated" and re-raising
    ensures service(sent + [Create(endpoint, b)]) == Failure(Conflict) && update.Some? &&
            Reshaped(b, update.value).Ok? ==>
      var answer := service(sent + [Create(endpoint, b), Update(endpoint, update.value, Reshaped(b, update.value).value)]);
      && (answer == Success ==> a.outcome == Done && |a.events| == 4)
      && (answer.Failure? ==> a.outcome == Raised(ApiException(answer.status)) && |a.events| == 3)
    // "updated" is printed exactly when the update succeeded, and then nothing is raised
    ensures Printed(objectName + " updated") in a.events <==> |a.events| == 4
    ensures |a.events| == 4 ==> a.outcome == Done && a.events[3] == Printed(objectName + " updated")
    ensures |a.events| <= 4
  {
    DistinctLines(objectName);
  }

  /** One call of `create_item` sends exactly one create request. */
  lemma UpsertCreatesOnce(service: Service, sent: seq<Request>, endpoint: Endpoint, b: BodyValue,
                          objectName: string, update: Option<string>)
    ensures Creates(Upsert(service, sent, endpoint, b, objectName, update).events) == [Create(endpoint, b)]
  {
    var a := Upsert(service, sent, endpoint, b, objectName, update);
    UpsertOutcomes(service, sent, endpoint, b, objectName, update, a);
    NoCreates(a.events[1..]);
  }

  lemma {:induction false} NoCreates(events: seq<Event>)
    requires forall i :: 0 <= i < |events| ==> !IsCreate(events[i])
    ensures Creates(events) == []
    decreases |events|
  {
    if events != [] {
      NoCreates(events[1..]);
    }
  }

  /**
   * A request body, the dict that `create_item` receives and `update_item`
   * mutates: `attributes` is `body["data"]["attributes"]`, `data` the other
   * members of `body["data"]`.
   */
  class Body {
    var data: map<string, Value>
    var attributes: map<string, Value>

    function Snapshot(): BodyValue
      reads this
    {
      BodyValue(data, attributes)
    }

    constructor (b: BodyValue)
      ensures Snapshot() == b
    {
      data := b.data;
      attributes := b.attributes;
    }

    /**
     * The body of `update_item`: set `data.id`, pop the three create-only
     * attributes, then pop `relationships` and `sku` when they are truthy.
     * A failing pop leaves the changes made before it in place.
     */
    method ToUpdate(id: string) returns (outcome: Outcome)
      modifies this
      ensures Reshaped(old(Snapshot()), id).Ok? ==>
        outcome == Done && Snapshot() == Reshaped(old(Snapshot()), id).value
      ensures Reshaped(old(Snapshot()), id).Err? ==>
        outcome == Raised(Reshaped(old(Snapshot()), id).error)
      ensures outcome.Raised? ==> data == old(data)["id" := Str(id)]
      ensures outcome == Raised(KeyError("external_id")) ==> attributes == old(attributes)
      ensures outcome == Raised(KeyError("catalog_type")) ==> attributes == old(attributes) - {"external_id"}
      ensures outcome == Raised(KeyError("integration_type")) ==>
        attributes == old(attributes) - {"external_id", "catalog_type"}
    {
      ghost var before := Snapshot();
      data := data["id" := Str(id)];
      if "external_id" !in attributes {
        return Raised(KeyError("external_id"));
      }
      attributes := attributes - {"external_id"};
      if "catalog_type" !in attributes {
        return Raised(KeyError("catalog_type"));
      }
      attributes := attributes - {"catalog_type"};
      if "integration_type" !in attributes {
        return Raised(KeyError("integration_type"));
      }
      attributes := attributes - {"integration_type"};
      assert attributes == before.attributes - {"external_id", "catalog_type", "integration_type"};
      if GetIsTruthy(data, "relationships") {
        data := data - {"relationships"};
      }
      if GetIsTruthy(attributes, "sku") {
        attributes := attributes - {"sku"};
      }
      return Done;
    }
  }

  /** `create_item` on a body object, which a conflict leaves reshaped. */
  method CreateItem(service: Service, sent: seq<Request>, endpoint: Endpoint, body: Body,
                    objectName: string, update: Option<string>) returns (events: seq<Event>, outcome: Outcome)
    modifies body
    ensures Attempt(events, outcome) == Upsert(service, sent, endpoint, old(body.Snapshot()), objectName, update)
    // without a conflict to update after, the body object is left as it was
    ensures service(sent + [Create(endpoint, old(body.Snapshot()))]) != Failure(Conflict) || update.None? ==>
      body.Snapshot() == old(body.Snapshot())
    // after a conflict the object holds the update body, even when the update then fails
    ensures service(sent + [Create(endpoint, old(body.Snapshot()))]) == Failure(Conflict) && update.Some? &&
            Reshaped(old(body.Snapshot()), update.value).Ok? ==>
      body.Snapshot() == Reshaped(old(body.Snapshot()), update.value).value
    // or, when a pop fails, the id is set and only the attributes popped before it are gone
    ensures service(sent + [Create(endpoint, old(body.Snapshot()))]) == Failure(Conflict) && update.Some? &&
            Reshaped(old(body.Snapshot()), update.value).Err? ==>
      var error := Reshaped(old(body.Snapshot()), update.value).error;
      && body.data == old(body.data)["id" := Str(update.value)]
      && (error == KeyError("external_id") ==> body.attributes == old(body.attributes))
      && (error == KeyError("catalog_type") ==> body.attributes == old(body.attributes) - {"external_id"})
      && (error == KeyError("integration_type") ==>
            body.attributes == old(body.attributes) - {"external_id", "catalog_type"})
  {
    var create := Create(endpoint, body.Snapshot());
    events := [Sent(create)];
    var answer := service(sent + [create]);
    if answer.Success? {
      events := events + [Printed(objectName + " created")];
      return events, Done;
    }
    if answer.status != Conflict {
      return events, Raised(ApiException(answer.status));
    }
    events := events + [Printed(objectName + " already exists")];
    outcome := Done;
    if update.Some? {
      var id := update.value;
      outcome := body.ToUpdate(id);
      if outcome.Done? {
        var request := Update(endpoint, id, body.Snapshot());
        events := events + [Sent(request)];
        var answer' := service(sent + [create, request]);
        if answer'.Success? {
          events := events + [Printed(objectName + " updated")];
        } else {
          outcome := Raised(ApiException(answer'.status));
        }
      }
    }
  }

  // ---------------------------------------------------------------------------
  // Idempotence against a service that remembers what it was sent

  /** `r` created the entity that `b` describes on `endpoint`. */
  predicate CreatesSame(r: Request, endpoint: Endpoint, b: BodyValue) {
    r.Create? && r.endpoint == endpoint &&
    "external_id" in r.body.attributes && "external_id" in b.attributes &&
    r.body.attributes["external_id"] == b.attributes["external_id"]
  }

  /**
   * A service whose state is what it was sent: a create conflicts exactly when
   * an earlier create on the same endpoint carried the same external id, and
   * every update succeeds.
   */
  function StableCatalog(requests: seq<Request>): Response {
    if requests == [] then Success
    else
      var last := requests[|requests| - 1];
      match last
      case Update(_, _, _) => Success
      case Create(endpoint, b) =>
        if exists i :: 0 <= i < |requests| - 1 && CreatesSame(requests[i], endpoint, b)
        then Failure(Conflict) else Success
  }

  /**
   * Upserting the same new body twice against a stable catalog reports
   * "created" once, then "already exists" (and "updated" when an update is
   * supplied), and never creates twice.
   */
  lemma UpsertTwice(sent: seq<Request>, endpoint: Endpoint, b: BodyValue, objectName: string, update: Option<string>)
    requires "external_id" in b.attributes
    requires forall i :: 0 <= i < |sent| ==> !CreatesSame(sent[i], endpoint, b)
    ensures var first := Upsert(StableCatalog, sent, endpoint, b, objectName, update);
      var second := Upsert(StableCatalog, sent + Requests(first.events), endpoint, b, objectName, update);
      && first.outcome == Done
      && first.events == [Sent(Create(endpoint, b)), Printed(objectName + " created")]
      && second.events[1] == Printed(objectName + " already exists")
      && (update.None? ==> second.outcome == Done && |second.events| == 2)
      && (update.Some? && Reshaped(b, update.value).Ok? ==>
            second.outcome == Done &&
            second.events == [Sent(Create(endpoint, b)), Printed(objectName + " already exists"),
                              Sent(Update(endpoint, update.value, Reshaped(b, update.value).value)),
                              Printed(objectName + " updated")])
  {
    var create := Create(endpoint, b);
    assert StableCatalog(sent + [create]) == Success by {
      var rs := sent + [create];
      assert forall i :: 0 <= i < |rs| - 1 ==> rs[i] == sent[i];
    }
    var first := Upsert(StableCatalog, sent, endpoint, b, objectName, update);
    UpsertOutcomes(StableCatalog, sent, endpoint, b, objectName, update, first);
    var events := first.events;
    assert Requests(events) == [create] by {
      assert events[1..] == [Printed(objectName + " created")];
      assert Requests(events[1..][1..]) == [];
    }
    var sent' := sent + [create];
    var rs := sent' + [create];
    assert CreatesSame(rs[|sent|], endpoint, b);
    assert StableCatalog(rs) == Failure(Conflict);
    if update.Some? && Reshaped(b, update.value).Ok? {
      var request := Update(endpoint, update.value, Reshaped(b, update.value).value);
      assert StableCatalog(sent' + [create, request]) == Success;
    }
  }
}
