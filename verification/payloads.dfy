/**
 * The entity builders: the request payloads for a category, an item (built
 * from the first row of a product) and a variant (built from every row), and
 * their encoding as request bodies.
 */
module Payloads {
  import opened Exceptions
  import opened Text
  import opened Rows
  import opened Bodies

  /** The catalog the importer writes to; the service refuses anything else. */
  const IntegrationType: string := "$custom"
  const CatalogType: string := "$default"
  const IdPrefix: string := IntegrationType + ":::" + CatalogType + ":::"

  const CategoryType: string := "catalog-category"
  const ItemType: string := "catalog-item"
  const VariantType: string := "catalog-variant"

  /** The service's id of a category, item or variant, from its external key. */
  function CompositeId(key: string): (id: string)
    ensures IdPrefix == "$custom:::$default:::"
    ensures |id| == |IdPrefix| + |key|
    ensures id[..|IdPrefix|] == IdPrefix && id[|IdPrefix|..] == key
  {
    IntegrationType + ":::" + CatalogType + ":::" + key
  }

  // ---------------------------------------------------------------------------
  // Category references

  datatype CategoryRef = CategoryRef(kind: string, id: string)

  /** An item's references to its categories, one per name in its `categories` column. */
  function CategoryRefs(categories: string): (refs: seq<CategoryRef>)
    ensures |refs| == |Split(categories)|
    ensures forall k :: 0 <= k < |refs| ==>
      refs[k].kind == CategoryType && refs[k].id == CompositeId(Split(categories)[k])
  {
    var names := Split(categories);
    seq(|names|, k requires 0 <= k < |names| => CategoryRef(CategoryType, CompositeId(names[k])))
  }

  /** The category name a reference points at. */
  function ReferencedName(ref: CategoryRef): string {
    if |IdPrefix| <= |ref.id| then ref.id[|IdPrefix|..] else ref.id
  }

  /**
   * The references lose nothing: the names they point at are the split pieces,
   * in order, and joined again they give back the `categories` column.
   */
  lemma CategoryRefsRoundTrip(categories: string)
    ensures var refs := CategoryRefs(categories);
      && (forall k :: 0 <= k < |refs| ==> ReferencedName(refs[k]) == Split(categories)[k])
      && Join(seq(|refs|, k requires 0 <= k < |refs| => ReferencedName(refs[k]))) == categories
  {
    var refs := CategoryRefs(categories);
    var names := seq(|refs|, k requires 0 <= k < |refs| => ReferencedName(refs[k]));
    assert names == Split(categories);
    SplitThenJoin(categories);
  }

  // ---------------------------------------------------------------------------
  // Custom metadata

  datatype MetadataKind = ItemMetadata | VariantMetadata

  /** The text removed from a column name to make the metadata key. */
  function Marker(kind: MetadataKind): (m: string)
    ensures m != ""
  {
    match kind
    case ItemMetadata => "metadata."
    case VariantMetadata => "variant.metadata."
  }

  /**
   * Item metadata takes the columns whose name contains "metadata." and not
   * "variant"; variant metadata the columns containing "variant.metadata.".
   */
  predicate Selects(kind: MetadataKind, column: string) {
    match kind
    case ItemMetadata => Contains(column, "metadata.") && !Contains(column, "variant")
    case VariantMetadata => Contains(column, "variant.metadata.")
  }

  /** The metadata key of a column: every occurrence of the marker removed. */
  function MetadataKey(kind: MetadataKind, column: string): string {
    RemoveAll(column, Marker(kind))
  }

  /**
   * The `custom_metadata` dict, built in column order so that a later column
   * overwrites an earlier one with the same key.
   */
  function CustomMetadata(row: Row, kind: MetadataKind): map<string, string>
    decreases |row|
  {
    if row == [] then map[]
    else
      var earlier := CustomMetadata(row[..|row| - 1], kind);
      var (column, value) := row[|row| - 1];
      if Selects(kind, column) then earlier[MetadataKey(kind, column) := value] else earlier
  }

  /** No selected column after position `i` maps to the same key as column `i`. */
  predicate LastWithKey(row: Row, kind: MetadataKind, i: nat)
    requires i < |row|
  {
    forall j :: i < j < |row| && Selects(kind, row[j].0) ==>
      MetadataKey(kind, row[j].0) != MetadataKey(kind, row[i].0)
  }

  /** Every selected column gives a metadata key: its name with the marker removed. */
  lemma {:induction false} CustomMetadataHasKeys(row: Row, kind: MetadataKind)
    ensures forall i :: 0 <= i < |row| && Selects(kind, row[i].0) ==>
      MetadataKey(kind, row[i].0) in CustomMetadata(row, kind)
    decreases |row|
  {
    if row != [] {
      var n := |row| - 1;
      CustomMetadataHasKeys(row[..n], kind);
      MetadataKeysSnoc(row, kind);
      assert forall i :: 0 <= i < n ==> row[..n][i] == row[i];
    }
  }

  /** Every metadata key comes from a selected column. */
  lemma {:induction false} CustomMetadataKeysFromColumns(row: Row, kind: MetadataKind)
    ensures forall key :: key in CustomMetadata(row, kind) ==>
      exists i :: 0 <= i < |row| && Selects(kind, row[i].0) && MetadataKey(kind, row[i].0) == key
    decreases |row|
  {
    if row != [] {
      var n := |row| - 1;
      var front := row[..n];
      CustomMetadataKeysFromColumns(front, kind);
      MetadataKeysSnoc(row, kind);
      forall key | key in CustomMetadata(front, kind)
        ensures exists i :: 0 <= i < |row| && Selects(kind, row[i].0) && MetadataKey(kind, row[i].0) == key
      {
        var i :| 0 <= i < |front| && Selects(kind, front[i].0) && MetadataKey(kind, front[i].0) == key;
        assert front[i] == row[i];
      }
    }
  }

  /** The last column adds its key, if selected, to the keys of the columns before it. */
  lemma MetadataKeysSnoc(row: Row, kind: MetadataKind)
    requires row != []
    ensures forall key :: key in CustomMetadata(row, kind) <==>
      key in CustomMetadata(row[..|row| - 1], kind) ||
      (Selects(kind, row[|row| - 1].0) && key == MetadataKey(kind, row[|row| - 1].0))
  {
  }

  /** Each metadata key holds the value of the last selected column that gives that key. */
  lemma {:induction false} CustomMetadataValues(row: Row, kind: MetadataKind, i: nat)
    requires i < |row| && Selects(kind, row[i].0) && LastWithKey(row, kind, i)
    ensures MetadataKey(kind, row[i].0) in CustomMetadata(row, kind)
    ensures CustomMetadata(row, kind)[MetadataKey(kind, row[i].0)] == row[i].1
    decreases |row|
  {
    var n := |row| - 1;
    var key := MetadataKey(kind, row[i].0);
    if i < n {
      LastWithKeyFront(row, kind, i);
      CustomMetadataValues(row[..n], kind, i);
      MetadataKeptAfter(row, kind, key);
    }
  }

  /** A key that the last column does not give keeps its earlier value. */
  lemma MetadataKeptAfter(row: Row, kind: MetadataKind, key: string)
    requires row != []
    requires Selects(kind, row[|row| - 1].0) ==> MetadataKey(kind, row[|row| - 1].0) != key
    ensures key in CustomMetadata(row, kind) <==> key in CustomMetadata(row[..|row| - 1], kind)
    ensures key in CustomMetadata(row, kind) ==>
      CustomMetadata(row, kind)[key] == CustomMetadata(row[..|row| - 1], kind)[key]
  {
  }

  /** Dropping the last column keeps an earlier column the last with its key. */
  lemma LastWithKeyFront(row: Row, kind: MetadataKind, i: nat)
    requires i < |row| - 1 && LastWithKey(row, kind, i)
    ensures row[..|row| - 1][i] == row[i] && LastWithKey(row[..|row| - 1], kind, i)
  {
    var front := row[..|row| - 1];
    forall j | i < j < |front| && Selects(kind, front[j].0)
      ensures MetadataKey(kind, front[j].0) != MetadataKey(kind, front[i].0)
    {
      assert front[j] == row[j];
    }
  }

  /** A column named "metadata." followed by a plain name gives that name as key. */
  lemma ItemMetadataColumn(name: string, value: string)
    requires !Contains(name, "metadata.") && !Contains("metadata." + name, "variant")
    ensures CustomMetadata([("metadata." + name, value)], ItemMetadata) == map[name := value]
  {
    RemovePrefix("metadata.", name);
    assert ("metadata." + name)[..|"metadata."|] == "metadata.";
    assert Selects(ItemMetadata, "metadata." + name);
    assert [("metadata." + name, value)][..0] == [];
  }

  // ---------------------------------------------------------------------------
  // Parsing numbers

  /** Python's `int(text)`: the conversion itself is a parameter of the model. */
  type IntParser = string -> Option<int>

  /** Python's `float(text)`, with floats modelled as reals. */
  type FloatParser = string -> Option<real>

  function ParseInt(parse: IntParser, text: string): (r: Result<int>)
    ensures r.Ok? <==> parse(text).Some?
    ensures r.Ok? ==> r.value == parse(text).value
    ensures r.Err? ==> r.error == ValueError(text)
  {
    match parse(text)
    case Some(n) => Ok(n)
    case None => Err(ValueError(text))
  }

  function ParseFloat(parse: FloatParser, text: string): (r: Result<real>)
    ensures r.Ok? <==> parse(text).Some?
    ensures r.Ok? ==> r.value == parse(text).value
    ensures r.Err? ==> r.error == ValueError(text)
  {
    match parse(text)
    case Some(x) => Ok(x)
    case None => Err(ValueError(text))
  }

  // ---------------------------------------------------------------------------
  // Payloads

  datatype ItemPayload = ItemPayload(
    externalId: string,
    title: string,
    description: string,
    price: real,
    url: string,
    imageFullUrl: string,
    imageThumbnailUrl: string,
    customMetadata: map<string, string>,
    categories: seq<CategoryRef>)

  datatype VariantPayload = VariantPayload(
    externalId: string,
    title: string,
    description: string,
    sku: string,
    inventoryPolicy: int,
    inventoryQuantity: int,
    price: real,
    url: string,
    imageFullUrl: string,
    imageThumbnailUrl: string,
    customMetadata: map<string, string>,
    itemId: string)

  /** The columns the item builder reads. */
  const ItemColumns: set<string> :=
    {"categories", "external_id", "title", "description", "price", "product_url", "image_full_url"}

  /** Python's `x or default` on an already-parsed number. */
  function OrInt(x: int, default: int): int {
    if x != 0 then x else default
  }

  /**
   * The item payload of a row.  Text fields are copied verbatim, the thumbnail
   * is the full image, and `float(price) or 0.00` keeps the parsed price.
   */
  function BuildItem(row: Row, parseFloat: FloatParser): (r: Result<ItemPayload>)
    ensures r.Ok? <==>
      (forall c :: c in ItemColumns ==> Has(row, c)) && parseFloat(Get(row, "price").value).Some?
    ensures r.Err? ==>
      || (r.error.KeyError? && r.error.key in ItemColumns && !Has(row, r.error.key))
      || (Has(row, "price") && r.error == ValueError(Get(row, "price").value))
    ensures r.Ok? ==>
      && r.value.externalId == Get(row, "external_id").value
      && r.value.title == Get(row, "title").value
      && r.value.description == Get(row, "description").value
      && r.value.price == parseFloat(Get(row, "price").value).value
      && r.value.url == Get(row, "product_url").value
      && r.value.imageFullUrl == Get(row, "image_full_url").value
      && r.value.imageThumbnailUrl == r.value.imageFullUrl
      && r.value.customMetadata == CustomMetadata(row, ItemMetadata)
      && r.value.categories == CategoryRefs(Get(row, "categories").value)
  {
    var categories :- Get(row, "categories");
    var refs := CategoryRefs(categories);
    var metadata := CustomMetadata(row, ItemMetadata);
    var externalId :- Get(row, "external_id");
    var title :- Get(row, "title");
    var description :- Get(row, "description");
    var priceText :- Get(row, "price");
    var price :- ParseFloat(parseFloat, priceText);
    var url :- Get(row, "product_url");
    var image :- Get(row, "image_full_url");
    Ok(ItemPayload(externalId, title, description, price, url, image, image, metadata, refs))
  }

  /** `row[column] or row[fallback]` can be evaluated. */
  predicate HasFallback(row: Row, column: string, fallback: string) {
    Has(row, column) && (Get(row, column).value == "" ==> Has(row, fallback))
  }

  /**
   * The variant payload of a row.  Description, price, url and image take the
   * variant's own column when non-empty and the item's otherwise; sku and
   * external id are `variant.sku`; an inventory policy of 0 becomes 1; the
   * item reference is the composite id of the row's `external_id`.
   */
  function BuildVariant(row: Row, parseInt: IntParser, parseFloat: FloatParser): (r: Result<VariantPayload>)
    ensures r.Ok? <==>
      && Has(row, "variant.sku")
      && Has(row, "variant.title")
      && HasFallback(row, "variant.description", "description")
      && Has(row, "variant.inventory_policy")
      && parseInt(Get(row, "variant.inventory_policy").value).Some?
      && Has(row, "variant.inventory_quantity")
      && parseInt(Get(row, "variant.inventory_quantity").value).Some?
      && HasFallback(row, "variant.price", "price")
      && parseFloat(GetOr(row, "variant.price", "price").value).Some?
      && HasFallback(row, "variant.product_url", "product_url")
      && HasFallback(row, "variant.image_full_url", "image_full_url")
      && Has(row, "external_id")
    ensures r.Err? ==> r.error.KeyError? ==> !Has(row, r.error.key)
    ensures r.Ok? ==>
      && r.value.sku == Get(row, "variant.sku").value
      && r.value.externalId == r.value.sku
      && r.value.title == Get(row, "variant.title").value
      && r.value.description == GetOr(row, "variant.description", "description").value
      && r.value.price == parseFloat(GetOr(row, "variant.price", "price").value).value
      && r.value.url == GetOr(row, "variant.product_url", "product_url").value
      && r.value.imageFullUrl == GetOr(row, "variant.image_full_url", "image_full_url").value
      && r.value.imageThumbnailUrl == r.value.imageFullUrl
      && r.value.customMetadata == CustomMetadata(row, VariantMetadata)
      && r.value.itemId == CompositeId(Get(row, "external_id").value)
    ensures r.Ok? ==>
      var policy := parseInt(Get(row, "variant.inventory_policy").value).value;
      && r.value.inventoryPolicy == (if policy == 0 then 1 else policy)
      && r.value.inventoryPolicy != 0
      && r.value.inventoryQuantity == parseInt(Get(row, "variant.inventory_quantity").value).value
  {
    var metadata := CustomMetadata(row, VariantMetadata);
    var sku :- Get(row, "variant.sku");
    var title :- Get(row, "variant.title");
    var description :- GetOr(row, "variant.description", "description");
    var policyText :- Get(row, "variant.inventory_policy");
    var policy :- ParseInt(parseInt, policyText);
    var quantityText :- Get(row, "variant.inventory_quantity");
    var quantity :- ParseInt(parseInt, quantityText);
    var priceText :- GetOr(row, "variant.price", "price");
    var price :- ParseFloat(parseFloat, priceText);
    var url :- GetOr(row, "variant.product_url", "product_url");
    var image :- GetOr(row, "variant.image_full_url", "image_full_url");
    var externalId :- Get(row, "external_id");
    Ok(VariantPayload(sku, title, description, sku, OrInt(policy, 1), OrInt(quantity, 0), price,
                      url, image, image, metadata, CompositeId(externalId)))
  }

  /** A variant whose own column is non-empty keeps it; an empty one inherits the item's. */
  lemma VariantFallback(row: Row, parseInt: IntParser, parseFloat: FloatParser)
    requires BuildVariant(row, parseInt, parseFloat).Ok?
    ensures var v := BuildVariant(row, parseInt, parseFloat).value;
      && (Get(row, "variant.description").value != "" ==> v.description == Get(row, "variant.description").value)
      && (Get(row, "variant.description").value == "" ==> v.description == Get(row, "description").value)
      && (Get(row, "variant.product_url").value != "" ==> v.url == Get(row, "variant.product_url").value)
      && (Get(row, "variant.product_url").value == "" ==> v.url == Get(row, "product_url").value)
      && (Get(row, "variant.image_full_url").value != "" ==>
            v.imageFullUrl == Get(row, "variant.image_full_url").value)
      && (Get(row, "variant.image_full_url").value == "" ==>
            v.imageFullUrl == Get(row, "image_full_url").value)
  {
  }

  // ---------------------------------------------------------------------------
  // Request bodies

  function StrMap(m: map<string, string>): Value {
    Dict(map k | k in m :: Str(m[k]))
  }

  function RefValue(kind: string, id: string): Value {
    Dict(map["type" := Str(kind), "id" := Str(id)])
  }

  function CategoryBody(name: string): BodyValue {
    BodyValue(
      map["type" := Str(CategoryType), "relationships" := Dict(map[])],
      map["external_id" := Str(name), "name" := Str(name),
          "integration_type" := Str(IntegrationType), "catalog_type" := Str(CatalogType)])
  }

  function ItemBody(p: ItemPayload): BodyValue {
    var refs := seq(|p.categories|, k requires 0 <= k < |p.categories| =>
                      RefValue(p.categories[k].kind, p.categories[k].id));
    BodyValue(
      map["type" := Str(ItemType),
          "relationships" := Dict(map["categories" := Dict(map["data" := List(refs)])])],
      map["external_id" := Str(p.externalId), "integration_type" := Str(IntegrationType),
          "title" := Str(p.title), "catalog_type" := Str(CatalogType),
          "description" := Str(p.description), "price" := Num(p.price), "url" := Str(p.url),
          "image_full_url" := Str(p.imageFullUrl), "image_thumbnail_url" := Str(p.imageThumbnailUrl),
          "images" := List([]), "published" := Bool(true), "custom_metadata" := StrMap(p.customMetadata)])
  }

  function VariantBody(p: VariantPayload): BodyValue {
    BodyValue(
      map["type" := Str(VariantType),
          "relationships" := Dict(map["item" := Dict(map["data" := RefValue(ItemType, p.itemId)])])],
      map["external_id" := Str(p.externalId), "catalog_type" := Str(CatalogType),
          "integration_type" := Str(IntegrationType), "title" := Str(p.title),
          "description" := Str(p.description), "sku" := Str(p.sku),
          "inventory_policy" := Int(p.inventoryPolicy), "inventory_quantity" := Int(p.inventoryQuantity),
          "price" := Num(p.price), "url" := Str(p.url), "image_full_url" := Str(p.imageFullUrl),
          "image_thumbnail_url" := Str(p.imageThumbnailUrl), "images" := List([]),
          "published" := Bool(true), "custom_metadata" := StrMap(p.customMetadata)])
  }

  /**
   * An item's create body always reshapes into an update body: it carries the
   * three create-only attributes, and its category relationships are dropped.
   */
  lemma ItemUpdateBody(p: ItemPayload, id: string)
    ensures Reshaped(ItemBody(p), id).Ok?
    ensures var u := Reshaped(ItemBody(p), id).value;
      && u.data == map["type" := Str(ItemType), "id" := Str(id)]
      && u.attributes == ItemBody(p).attributes - {"external_id", "catalog_type", "integration_type"}
  {
    var b := ItemBody(p);
    assert "external_id" in b.attributes;
    assert "catalog_type" in b.attributes;
    assert "integration_type" in b.attributes;
    ReshapedFails(b, id);
    ItemUpdateData(p, id);
    ItemUpdateAttributes(p, id);
  }

  lemma ItemUpdateData(p: ItemPayload, id: string)
    requires Reshaped(ItemBody(p), id).Ok?
    ensures Reshaped(ItemBody(p), id).value.data == map["type" := Str(ItemType), "id" := Str(id)]
  {
    var b := ItemBody(p);
    var data := b.data["id" := Str(id)];
    assert "categories" in data["relationships"].entries;
    assert GetIsTruthy(data, "relationships");
    var d := data - {"relationships"};
    assert d.Keys == {"type", "id"};
    assert Reshaped(b, id).value.data == d;
  }

  lemma ItemUpdateAttributes(p: ItemPayload, id: string)
    requires Reshaped(ItemBody(p), id).Ok?
    ensures Reshaped(ItemBody(p), id).value.attributes ==
      ItemBody(p).attributes - {"external_id", "catalog_type", "integration_type"}
  {
    var b := ItemBody(p);
    var attributes := b.attributes - {"external_id", "catalog_type", "integration_type"};
    assert "sku" !in attributes;
    assert Reshaped(b, id).value.attributes == attributes;
  }

  /**
   * A variant's create body always reshapes into an update body: the item
   * relationship is dropped, and so is the sku unless it is empty.
   */
  lemma VariantUpdateBody(p: VariantPayload, id: string)
    ensures Reshaped(VariantBody(p), id).Ok?
    ensures var u := Reshaped(VariantBody(p), id).value;
      && u.data == map["type" := Str(VariantType), "id" := Str(id)]
      && ("sku" in u.attributes <==> p.sku == "")
  {
    var b := VariantBody(p);
    assert "external_id" in b.attributes;
    assert "catalog_type" in b.attributes;
    assert "integration_type" in b.attributes;
    ReshapedFails(b, id);
    VariantUpdateData(p, id);
    VariantUpdateSku(p, id);
  }

  lemma VariantUpdateData(p: VariantPayload, id: string)
    requires Reshaped(VariantBody(p), id).Ok?
    ensures Reshaped(VariantBody(p), id).value.data == map["type" := Str(VariantType), "id" := Str(id)]
  {
    var b := VariantBody(p);
    var data := b.data["id" := Str(id)];
    assert "item" in data["relationships"].entries;
    assert GetIsTruthy(data, "relationships");
    var d := data - {"relationships"};
    assert d.Keys == {"type", "id"};
    assert Reshaped(b, id).value.data == d;
  }

  lemma VariantUpdateSku(p: VariantPayload, id: string)
    requires Reshaped(VariantBody(p), id).Ok?
    ensures "sku" in Reshaped(VariantBody(p), id).value.attributes <==> p.sku == ""
  {
    var b := VariantBody(p);
    assert "sku" in b.attributes && b.attributes["sku"] == Str(p.sku);
    ReshapedBody(b, id, Reshaped(b, id).value);
  }
}
