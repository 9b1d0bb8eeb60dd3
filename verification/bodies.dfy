/**
 * Request bodies as the JSON-like dictionaries the importer builds, and the
 * reshaping of a create body into an update body (the nested `update_item`
 * of `create_item`).
 */
module Bodies {
  import opened Exceptions

  /** A JSON-like Python value. `Num` stands for a `float`. */
  datatype Value =
    | Null
    | Str(s: string)
    | Int(i: int)
    | Num(x: real)
    | Bool(b: bool)
    | List(items: seq<Value>)
    | Dict(entries: map<string, Value>)

  /** Python truthiness: empty strings and containers, zero and `False` are false. */
  predicate Truthy(v: Value) {
    match v
    case Null => false
    case Str(s) => s != ""
    case Int(i) => i != 0
    case Num(x) => x != 0.0
    case Bool(b) => b
    case List(items) => items != []
    case Dict(entries) => entries != map[]
  }

  /** Python's `if d.get(key):`. */
  predicate GetIsTruthy(d: map<string, Value>, key: string) {
    key in d && Truthy(d[key])
  }

  /**
   * The `"data"` member of a request body: `attributes` is `body["data"]["attributes"]`,
   * `data` holds the other members of `body["data"]` (`type`, `relationships`, `id`).
   */
  datatype BodyValue = BodyValue(data: map<string, Value>, attributes: map<string, Value>)

  /** The attributes an update body must not carry, popped in this order. */
  const CreateOnlyKeys: seq<string> := ["external_id", "catalog_type", "integration_type"]

  /**
   * The update body built from a create body: set `data.id`, pop the three
   * create-only attributes in order, then pop `relationships` and `sku` when
   * they hold a truthy value.
   */
  function Reshaped(b: BodyValue, id: string): Result<BodyValue> {
    if "external_id" !in b.attributes then Err(KeyError("external_id"))
    else if "catalog_type" !in b.attributes then Err(KeyError("catalog_type"))
    else if "integration_type" !in b.attributes then Err(KeyError("integration_type"))
    else
      var data := b.data["id" := Str(id)];
      var attributes := b.attributes - {"external_id", "catalog_type", "integration_type"};
      var data' := if GetIsTruthy(data, "relationships") then data - {"relationships"} else data;
      var attributes' := if GetIsTruthy(attributes, "sku") then attributes - {"sku"} else attributes;
      Ok(BodyValue(data', attributes'))
  }

  /**
   * The update body exists exactly when the three create-only attributes are
   * present; otherwise the error is a `KeyError` naming the first one absent.
   */
  lemma ReshapedFails(b: BodyValue, id: string)
    ensures Reshaped(b, id).Ok? <==>
      forall n :: 0 <= n < |CreateOnlyKeys| ==> CreateOnlyKeys[n] in b.attributes
    ensures Reshaped(b, id).Err? ==>
      exists n :: 0 <= n < |CreateOnlyKeys| && Reshaped(b, id).error == KeyError(CreateOnlyKeys[n]) &&
        CreateOnlyKeys[n] !in b.attributes &&
        forall m :: 0 <= m < n ==> CreateOnlyKeys[m] in b.attributes
  {
    if "external_id" !in b.attributes {
      assert CreateOnlyKeys[0] == "external_id";
    } else if "catalog_type" !in b.attributes {
      assert CreateOnlyKeys[1] == "catalog_type";
    } else if "integration_type" !in b.attributes {
      assert CreateOnlyKeys[2] == "integration_type";
    }
  }

  /**
   * The update body has `data.id` set, loses `relationships` and `sku`
   * exactly when they are truthy, loses the create-only attributes, and
   * keeps everything else unchanged.
   */
  lemma ReshapedBody(b: BodyValue, id: string, u: BodyValue)
    requires Reshaped(b, id) == Ok(u)
    ensures "id" in u.data && u.data["id"] == Str(id)
    ensures "relationships" in u.data <==> "relationships" in b.data && !Truthy(b.data["relationships"])
    ensures u.data.Keys <= b.data.Keys + {"id"}
    ensures forall k :: k in b.data && k != "id" && k != "relationships" ==> k in u.data && u.data[k] == b.data[k]
    ensures forall k :: k in u.data && k != "id" ==> u.data[k] == b.data[k]
    ensures u.attributes.Keys ==
      b.attributes.Keys - {"external_id", "catalog_type", "integration_type"}
        - (if GetIsTruthy(b.attributes, "sku") then {"sku"} else {})
    ensures forall k :: k in u.attributes ==> u.attributes[k] == b.attributes[k]
  {
    var attributes := b.attributes - {"external_id", "catalog_type", "integration_type"};
    assert GetIsTruthy(attributes, "sku") == GetIsTruthy(b.attributes, "sku");
  }
}
