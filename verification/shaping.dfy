/** Record shaping (`requestedData`): each upstream record is projected onto the public
    schema that the resolved resource name selects, in order, one output per input. */
module Shaping {
  import opened Js
  import opened Endpoint

  /** The exact property sets of the two public record shapes. */
  const LocationKeys: set<string> := {"id", "name", "image", "link"}
  const PersonKeys: set<string> := {"id", "firstName", "lastName", "department"}

  /** `dest === 'locations'` and `dest === 'directory'` (strict equality with a string). */
  predicate IsLocations(dest: JsValue) {
    dest == Str(LocationsResource)
  }

  predicate IsDirectory(dest: JsValue) {
    dest == Str(DirectoryResource)
  }

  /** `item.attributes`. */
  function Attributes(item: JsValue): JsValue
    requires item.Obj?
  {
    Prop(item, "attributes")
  }

  /** The record is one the projection for `dest` can read without throwing: an object
      with an `attributes` object, whose `thumbnails` is an array for locations. Any
      value passes through the identity projection. */
  predicate Shapeable(item: JsValue, dest: JsValue) {
    if IsLocations(dest) then
      item.Obj? && Attributes(item).Obj? && Prop(Attributes(item), "thumbnails").Arr?
    else if IsDirectory(dest) then
      item.Obj? && Attributes(item).Obj?
    else
      true
  }

  /** The `thumbnails` array of a location record. */
  function Thumbnails(item: JsValue): seq<JsValue>
    requires Shapeable(item, Str(LocationsResource))
  {
    Prop(Attributes(item), "thumbnails").elems
  }

  /** The `image` rule: the first thumbnail, or `null` when there is none. */
  function FirstOrNull(thumbnails: seq<JsValue>): JsValue {
    if |thumbnails| > 0 then thumbnails[0] else Null
  }

  /** The location projection `{id, name, image, link}`. */
  function ShapeLocation(item: JsValue): JsValue
    requires Shapeable(item, Str(LocationsResource))
  {
    var attributes := Attributes(item);
    Obj(map[
      "id" := Prop(item, "id"),
      "name" := Prop(attributes, "name"),
      "image" := FirstOrNull(Thumbnails(item)),
      "link" := Prop(attributes, "website")])
  }

  /** The person projection `{id, firstName, lastName, department}`. */
  function ShapePerson(item: JsValue): JsValue
    requires Shapeable(item, Str(DirectoryResource))
  {
    var attributes := Attributes(item);
    Obj(map[
      "id" := Prop(item, "id"),
      "firstName" := Prop(attributes, "firstName"),
      "lastName" := Prop(attributes, "lastName"),
      "department" := Prop(attributes, "department")])
  }

  /** The callback passed to `items.map`: the projection selected by `dest`. The output has
      exactly the public fields of its shape, each copied from where the source reads it;
      for any other `dest` (including `null`) the record itself is returned. */
  function ShapeItem(item: JsValue, dest: JsValue): (out: JsValue)
    requires Shapeable(item, dest)
    ensures IsLocations(dest) ==>
      && out.Obj? && out.props.Keys == LocationKeys
      && out.props["id"] == Prop(item, "id")
      && out.props["name"] == Prop(Attributes(item), "name")
      && out.props["link"] == Prop(Attributes(item), "website")
      && (|Thumbnails(item)| > 0 ==> out.props["image"] == Thumbnails(item)[0])
      && (|Thumbnails(item)| == 0 ==> out.props["image"] == Null)
    ensures IsDirectory(dest) ==>
      && out.Obj? && out.props.Keys == PersonKeys
      && out.props["id"] == Prop(item, "id")
      && out.props["firstName"] == Prop(Attributes(item), "firstName")
      && out.props["lastName"] == Prop(Attributes(item), "lastName")
      && out.props["department"] == Prop(Attributes(item), "department")
    ensures !IsLocations(dest) && !IsDirectory(dest) ==> out == item
  {
    if IsLocations(dest) then ShapeLocation(item)
    else if IsDirectory(dest) then ShapePerson(item)
    else item
  }

  /** Every record of `items` can be shaped for `dest`. */
  predicate AllShapeable(items: seq<JsValue>, dest: JsValue) {
    forall i :: 0 <= i < |items| ==> Shapeable(items[i], dest)
  }

  /** `requestedData(items, dest)`: `items.map(ShapeItem)`. Nothing is dropped, duplicated
      or reordered: the i-th output is the shaping of the i-th input. */
  function RequestedData(items: seq<JsValue>, dest: JsValue): (out: seq<JsValue>)
    requires AllShapeable(items, dest)
    ensures |out| == |items|
    ensures forall i :: 0 <= i < |items| ==> out[i] == ShapeItem(items[i], dest)
    decreases |items|
  {
    if |items| == 0 then []
    else [ShapeItem(items[0], dest)] + RequestedData(items[1..], dest)
  }

  /** Shaping distributes over concatenation: each record is shaped independently of its
      neighbours. */
  lemma {:induction false} RequestedDataAppend(a: seq<JsValue>, b: seq<JsValue>, dest: JsValue)
    requires AllShapeable(a, dest) && AllShapeable(b, dest)
    ensures AllShapeable(a + b, dest)
    ensures RequestedData(a + b, dest) == RequestedData(a, dest) + RequestedData(b, dest)
  {
    assert forall i :: 0 <= i < |a + b| ==> (a + b)[i] == if i < |a| then a[i] else b[i - |a|];
    var whole := RequestedData(a + b, dest);
    var parts := RequestedData(a, dest) + RequestedData(b, dest);
    assert |whole| == |parts|;
    forall i | 0 <= i < |whole|
      ensures whole[i] == parts[i]
    {
      if i < |a| {
        assert (a + b)[i] == a[i];
      } else {
        assert (a + b)[i] == b[i - |a|];
      }
    }
  }

  /** For any resource other than `locations` and `directory` — in particular the `null`
      an unknown path resolves to — shaping returns the upstream data unchanged. */
  lemma UnknownDestIsIdentity(items: seq<JsValue>, dest: JsValue)
    requires !IsLocations(dest) && !IsDirectory(dest)
    ensures AllShapeable(items, dest)
    ensures RequestedData(items, dest) == items
  {
  }

  /** Every location output has exactly the location fields, and every person output
      exactly the person fields: the shape depends on the resource alone. */
  lemma OutputsHaveExactKeys(items: seq<JsValue>, dest: JsValue)
    requires AllShapeable(items, dest)
    ensures IsLocations(dest) ==> forall i :: 0 <= i < |items| ==>
      RequestedData(items, dest)[i].Obj? && RequestedData(items, dest)[i].props.Keys == LocationKeys
    ensures IsDirectory(dest) ==> forall i :: 0 <= i < |items| ==>
      RequestedData(items, dest)[i].Obj? && RequestedData(items, dest)[i].props.Keys == PersonKeys
  {
  }

  /** A location output is determined by exactly four things — the record's `id`, its
      `name`, its `website` and the first thumbnail (or its absence) — and by nothing else. */
  lemma LocationDependsOnlyOnPublicFields(a: JsValue, b: JsValue)
    requires Shapeable(a, Str(LocationsResource)) && Shapeable(b, Str(LocationsResource))
    ensures ShapeItem(a, Str(LocationsResource)) == ShapeItem(b, Str(LocationsResource)) <==>
      && Prop(a, "id") == Prop(b, "id")
      && Prop(Attributes(a), "name") == Prop(Attributes(b), "name")
      && Prop(Attributes(a), "website") == Prop(Attributes(b), "website")
      && FirstOrNull(Thumbnails(a)) == FirstOrNull(Thumbnails(b))
  {
    var dest := Str(LocationsResource);
    var sa, sb := ShapeItem(a, dest), ShapeItem(b, dest);
    if sa == sb {
      assert sa.props["id"] == sb.props["id"];
      assert sa.props["name"] == sb.props["name"];
      assert sa.props["link"] == sb.props["link"];
      assert sa.props["image"] == sb.props["image"];
    }
  }

  /** A person output is determined by the record's `id`, `firstName`, `lastName` and
      `department` alone: every other attribute is dropped. */
  lemma PersonDependsOnlyOnPublicFields(a: JsValue, b: JsValue)
    requires Shapeable(a, Str(DirectoryResource)) && Shapeable(b, Str(DirectoryResource))
    ensures ShapeItem(a, Str(DirectoryResource)) == ShapeItem(b, Str(DirectoryResource)) <==>
      && Prop(a, "id") == Prop(b, "id")
      && Prop(Attributes(a), "firstName") == Prop(Attributes(b), "firstName")
      && Prop(Attributes(a), "lastName") == Prop(Attributes(b), "lastName")
      && Prop(Attributes(a), "department") == Prop(Attributes(b), "department")
  {
    var dest := Str(DirectoryResource);
    var sa, sb := ShapeItem(a, dest), ShapeItem(b, dest);
    if sa == sb {
      assert sa.props["id"] == sb.props["id"];
      assert sa.props["firstName"] == sb.props["firstName"];
      assert sa.props["lastName"] == sb.props["lastName"];
      assert sa.props["department"] == sb.props["department"];
    }
  }

  /** A location record with attributes `{name, website, thumbnails}`. */
  function LocationRecord(id: JsValue, name: JsValue, website: JsValue, thumbnails: seq<JsValue>): JsValue {
    Obj(map[
      "id" := id,
      "attributes" := Obj(map["name" := name, "website" := website, "thumbnails" := Arr(thumbnails)])])
  }

  /** No thumbnails: the image is `null`. */
  lemma NoThumbnailsGivesNullImage(id: JsValue, name: JsValue, website: JsValue)
    ensures ShapeItem(LocationRecord(id, name, website, []), Str(LocationsResource)).props["image"] == Null
  {
    assert Thumbnails(LocationRecord(id, name, website, [])) == [];
  }

  /** Thumbnails `["a.jpg", "b.jpg"]`: the image is `"a.jpg"`. */
  lemma FirstThumbnailIsImage(id: JsValue, name: JsValue, website: JsValue)
    ensures ShapeItem(LocationRecord(id, name, website, [Str("a.jpg"), Str("b.jpg")]), Str(LocationsResource)).props["image"]
      == Str("a.jpg")
  {
    assert Thumbnails(LocationRecord(id, name, website, [Str("a.jpg"), Str("b.jpg")])) == [Str("a.jpg"), Str("b.jpg")];
  }

  /** Thumbnails after the first never reach the output. */
  lemma LaterThumbnailsIgnored(id: JsValue, name: JsValue, website: JsValue, first: JsValue, rest: seq<JsValue>)
    ensures ShapeItem(LocationRecord(id, name, website, [first] + rest), Str(LocationsResource))
      == ShapeItem(LocationRecord(id, name, website, [first]), Str(LocationsResource))
  {
    var one := LocationRecord(id, name, website, [first]);
    var more := LocationRecord(id, name, website, [first] + rest);
    assert Thumbnails(more)[0] == first;
    assert Thumbnails(one)[0] == first;
    LocationDependsOnlyOnPublicFields(more, one);
  }
}
