/** Component information: a record of a component's id, main, config,
    partition count, worker and multi-threaded flags, input and output
    descriptions, and resource set, built from JSON with defaults or copied
    from another record, then changed field by field.

    JSON reads follow the Vert.x 3 `JsonObject` accessors: an absent key
    gives the default, a key present with null gives null (not the default),
    and a value of the wrong type fails the cast. A null read into a primitive
    `int` or `boolean` fails when unboxed. `UUID.randomUUID()` is a
    `UuidSource`; the input and output descriptions are kept as the JSON
    objects they are built from. Nullable fields are `Option`s. */
module ComponentInformation {
  import opened Common

  const CLASS_CAST: string := "ClassCastException"
  const NULL_POINTER: string := "NullPointerException"

  /** The record's fields, as values. `resources` holds whatever the JSON
      array held: the raw `HashSet` copy does not check element types. */
  datatype Info = Info(
    id: Option<string>,
    main: Option<string>,
    config: Option<JsonObject>,
    partitions: Int32,
    worker: bool,
    multiThreaded: bool,
    input: Option<JsonObject>,
    output: Option<JsonObject>,
    resources: set<Json>)

  // ---------------------------------------------------------------------------
  // The accessors the JSON constructor uses.

  /** `getString(key, def)`. */
  function StringAt(c: JsonObject, key: string, def: Option<string>): (r: Result<Option<string>, string>)
    ensures r.Failure? <==> key in c && !c[key].JNull? && !c[key].JStr?
    ensures r.Success? && key in c ==> r.value == (if c[key].JStr? then Some(c[key].s) else None)
    ensures key !in c ==> r == Success(def)
  {
    if key !in c then Success(def)
    else match c[key]
      case JNull => Success(None)
      case JStr(s) => Success(Some(s))
      case _ => Failure(CLASS_CAST)
  }

  /** `getJsonObject(key, def)`. */
  function ObjectAt(c: JsonObject, key: string, def: Option<JsonObject>): (r: Result<Option<JsonObject>, string>)
    ensures r.Failure? <==> key in c && !c[key].JNull? && !c[key].JObj?
    ensures r.Success? && key in c ==> r.value == (if c[key].JObj? then Some(c[key].fields) else None)
    ensures key !in c ==> r == Success(def)
  {
    if key !in c then Success(def)
    else match c[key]
      case JNull => Success(None)
      case JObj(fields) => Success(Some(fields))
      case _ => Failure(CLASS_CAST)
  }

  /** `getInteger(key, def)`: a number is narrowed with `intValue()`. */
  function IntegerAt(c: JsonObject, key: string, def: Option<Int32>): (r: Result<Option<Int32>, string>)
    ensures r.Failure? <==> key in c && !c[key].JNull? && !c[key].JNum?
    ensures r.Success? && key in c ==> r.value == (if c[key].JNum? then Some(WrapInt(c[key].n)) else None)
    ensures key !in c ==> r == Success(def)
  {
    if key !in c then Success(def)
    else match c[key]
      case JNull => Success(None)
      case JNum(n) => Success(Some(WrapInt(n)))
      case _ => Failure(CLASS_CAST)
  }

  /** `getBoolean(key)`: absent and null both read as null. */
  function BooleanAt(c: JsonObject, key: string): (r: Result<Option<bool>, string>)
    ensures r.Failure? <==> key in c && !c[key].JNull? && !c[key].JBool?
    ensures r.Success? ==> r.value == (if GetValue(c, key).JBool? then Some(GetValue(c, key).b) else None)
  {
    match GetValue(c, key)
    case JNull => Success(None)
    case JBool(b) => Success(Some(b))
    case _ => Failure(CLASS_CAST)
  }

  /** `getJsonArray(key, def)`, as the list of its items. */
  function ArrayAt(c: JsonObject, key: string, def: Option<seq<Json>>): (r: Result<Option<seq<Json>>, string>)
    ensures r.Failure? <==> key in c && !c[key].JNull? && !c[key].JArr?
    ensures r.Success? && key in c ==> r.value == (if c[key].JArr? then Some(c[key].items) else None)
    ensures key !in c ==> r == Success(def)
  {
    if key !in c then Success(def)
    else match c[key]
      case JNull => Success(None)
      case JArr(items) => Success(Some(items))
      case _ => Failure(CLASS_CAST)
  }

  function ItemSet(items: seq<Json>): set<Json>
  {
    set j | 0 <= j < |items| :: items[j]
  }

  // ---------------------------------------------------------------------------
  // The JSON constructor.

  /** The documents the JSON constructor accepts, stated key by key:
      `id`, `config`, `input` and `output` absent, null or of their type;
      `main` a string; `partitions` absent or a number; `worker` and
      `multi-threaded` booleans; `resources` absent or an array. */
  predicate Admissible(c: JsonObject)
  {
    && ("id" !in c || c["id"].JNull? || c["id"].JStr?)
    && GetValue(c, "main").JStr?
    && ("config" !in c || c["config"].JNull? || c["config"].JObj?)
    && ("partitions" !in c || c["partitions"].JNum?)
    && GetValue(c, "worker").JBool?
    && GetValue(c, "multi-threaded").JBool?
    && ("input" !in c || c["input"].JNull? || c["input"].JObj?)
    && ("output" !in c || c["output"].JNull? || c["output"].JObj?)
    && ("resources" !in c || c["resources"].JArr?)
  }

  /** `new ComponentInfoImpl(JsonObject)`, with `freshId` the random UUID
      drawn for the `id` default: the record, or the exception the Java
      constructor throws. */
  function Parse(c: JsonObject, freshId: string): (r: Result<Info, string>)
    ensures r.Success? <==> Admissible(c)
    ensures r.Failure? ==> r.error == CLASS_CAST || r.error == NULL_POINTER
    ensures r.Success? ==>
      && r.value.main == Some(c["main"].s)
      && r.value.worker == c["worker"].b
      && r.value.multiThreaded == c["multi-threaded"].b
      && r.value.input.Some? && r.value.output.Some?
  {
    var id := StringAt(c, "id", Some(freshId));
    var main := StringAt(c, "main", None);
    var config := ObjectAt(c, "config", Some(map[]));
    var partitions := IntegerAt(c, "partitions", Some(1));
    var worker := BooleanAt(c, "worker");
    var multiThreaded := BooleanAt(c, "multi-threaded");
    var input := ObjectAt(c, "input", Some(map[]));
    var output := ObjectAt(c, "output", Some(map[]));
    var resources := ArrayAt(c, "resources", Some([]));
    if id.Failure? || main.Failure? then Failure(CLASS_CAST)
    else if main.value.None? then Failure(NULL_POINTER)
    else if config.Failure? || partitions.Failure? then Failure(CLASS_CAST)
    else if partitions.value.None? then Failure(NULL_POINTER)
    else if worker.Failure? then Failure(CLASS_CAST)
    else if worker.value.None? then Failure(NULL_POINTER)
    else if multiThreaded.Failure? then Failure(CLASS_CAST)
    else if multiThreaded.value.None? then Failure(NULL_POINTER)
    else if input.Failure? || output.Failure? || resources.Failure? then Failure(CLASS_CAST)
    else if resources.value.None? then Failure(NULL_POINTER)
    else
      Success(Info(
        id.value, main.value, config.value, partitions.value.value,
        worker.value.value, multiThreaded.value.value,
        Some(if input.value.Some? then input.value.value else map[]),
        Some(if output.value.Some? then output.value.value else map[]),
        ItemSet(resources.value.value)))
  }

  /** The defaults: an absent `id` becomes the fresh id, an absent `config`
      an empty object, an absent `partitions` 1, an absent `resources` the
      empty set; `input` and `output` become empty objects whether absent or
      null. */
  lemma ParseDefaults(c: JsonObject, freshId: string)
    requires Admissible(c)
    ensures "id" !in c ==> Parse(c, freshId).value.id == Some(freshId)
    ensures "config" !in c ==> Parse(c, freshId).value.config == Some(map[])
    ensures "partitions" !in c ==> Parse(c, freshId).value.partitions == 1
    ensures "resources" !in c ==> Parse(c, freshId).value.resources == {}
    ensures GetValue(c, "input") == JNull ==> Parse(c, freshId).value.input == Some(map[])
    ensures GetValue(c, "output") == JNull ==> Parse(c, freshId).value.output == Some(map[])
  {
  }

  /** Present scalar values are taken as they are: a string or null `id`,
      an object `config`, a number narrowed to `int`. */
  lemma ParseExplicit(c: JsonObject, freshId: string)
    requires Admissible(c)
    ensures "id" in c && c["id"].JStr? ==> Parse(c, freshId).value.id == Some(c["id"].s)
    ensures "id" in c && c["id"].JNull? ==> Parse(c, freshId).value.id == None
    ensures "config" in c && c["config"].JObj? ==> Parse(c, freshId).value.config == Some(c["config"].fields)
    ensures "partitions" in c ==> Parse(c, freshId).value.partitions == WrapInt(c["partitions"].n)
  {
  }

  /** Present `input` and `output` objects are kept, and the resource set
      holds exactly the items of a present `resources` array. */
  lemma ParseExplicitParts(c: JsonObject, freshId: string)
    requires Admissible(c)
    ensures "input" in c && c["input"].JObj? ==> Parse(c, freshId).value.input == Some(c["input"].fields)
    ensures "output" in c && c["output"].JObj? ==> Parse(c, freshId).value.output == Some(c["output"].fields)
    ensures "resources" in c ==> forall x :: x in Parse(c, freshId).value.resources <==> x in c["resources"].items
  {
    if "resources" in c {
      var items := c["resources"].items;
      assert Parse(c, freshId).value.resources == ItemSet(items);
      forall x
        ensures x in ItemSet(items) <==> x in items
      {
        if x in items {
          var j :| 0 <= j < |items| && items[j] == x;
        }
      }
    }
  }

  /** A missing or null `main` is rejected, as are a missing `worker` or
      `multi-threaded` flag. */
  lemma ParseRequired(c: JsonObject, freshId: string)
    ensures GetValue(c, "main") == JNull ==> Parse(c, freshId).Failure?
    ensures "worker" !in c ==> Parse(c, freshId).Failure?
    ensures "multi-threaded" !in c ==> Parse(c, freshId).Failure?
  {
  }

  // ---------------------------------------------------------------------------
  // Resource-set operations, on values.

  /** `addResource`. */
  function WithResource(info: Info, r: string): (out: Info)
    ensures out.resources == info.resources + {JStr(r)}
    ensures out.(resources := info.resources) == info
  {
    info.(resources := info.resources + {JStr(r)})
  }

  /** `removeResource`. */
  function WithoutResource(info: Info, r: string): (out: Info)
    ensures out.resources == info.resources - {JStr(r)}
    ensures out.(resources := info.resources) == info
  {
    info.(resources := info.resources - {JStr(r)})
  }

  /** Adding a resource twice is adding it once. */
  lemma AddResourceIdempotent(info: Info, r: string)
    ensures WithResource(WithResource(info, r), r) == WithResource(info, r)
  {
  }

  /** Removing a resource removes that element and keeps every other one. */
  lemma RemoveResourceOnly(info: Info, r: string)
    ensures JStr(r) !in WithoutResource(info, r).resources
    ensures forall x :: x != JStr(r) ==> (x in WithoutResource(info, r).resources <==> x in info.resources)
  {
  }

  /** Removing what was just added leaves a set without it, otherwise as before. */
  lemma AddThenRemove(info: Info, r: string)
    ensures WithoutResource(WithResource(info, r), r) == WithoutResource(info, r)
  {
  }

  // ---------------------------------------------------------------------------
  // The mutable record.

  class ComponentInfoImpl {
    var id: Option<string>
    var main: Option<string>
    var config: Option<JsonObject>
    var partitions: Int32
    var worker: bool
    var multiThreaded: bool
    var input: Option<JsonObject>
    var output: Option<JsonObject>
    var resources: set<Json>

    /** Every field at once; `Fields().f` is what the getter of `f` returns. */
    function Fields(): Info
      reads this
    {
      Info(id, main, config, partitions, worker, multiThreaded, input, output, resources)
    }

    /** The no-argument constructor: null references, zero, false, no resources. */
    constructor ()
      ensures Fields() == Info(None, None, None, 0, false, false, None, None, {})
    {
      id, main, config, partitions := None, None, None, 0;
      worker, multiThreaded, input, output := false, false, None, None;
      resources := {};
    }

    constructor WithId(id: string)
      ensures Fields() == Info(Some(id), None, None, 0, false, false, None, None, {})
    {
      this.id, main, config, partitions := Some(id), None, None, 0;
      worker, multiThreaded, input, output := false, false, None, None;
      resources := {};
    }

    /** The copy constructor: every field but `input` and `output`, which
        stay null; the resource set is a copy, independent of `other`'s. */
    constructor Copy(other: ComponentInfoImpl)
      ensures Fields() == other.Fields().(input := None, output := None)
    {
      id, main, config, partitions := other.id, other.main, other.config, other.partitions;
      worker, multiThreaded := other.worker, other.multiThreaded;
      input, output := None, None;
      resources := other.resources;
    }

    constructor FromInfo(info: Info)
      ensures Fields() == info
    {
      id, main, config, partitions := info.id, info.main, info.config, info.partitions;
      worker, multiThreaded, input, output := info.worker, info.multiThreaded, info.input, info.output;
      resources := info.resources;
    }

    method SetId(v: Option<string>)
      modifies this
      ensures Fields() == old(Fields()).(id := v)
    {
      id := v;
    }

    method SetMain(v: Option<string>)
      modifies this
      ensures Fields() == old(Fields()).(main := v)
    {
      main := v;
    }

    method SetConfig(v: Option<JsonObject>)
      modifies this
      ensures Fields() == old(Fields()).(config := v)
    {
      config := v;
    }

    method SetPartitions(v: Int32)
      modifies this
      ensures Fields() == old(Fields()).(partitions := v)
    {
      partitions := v;
    }

    method SetWorker(v: bool)
      modifies this
      ensures Fields() == old(Fields()).(worker := v)
    {
      worker := v;
    }

    method SetMultiThreaded(v: bool)
      modifies this
      ensures Fields() == old(Fields()).(multiThreaded := v)
    {
      multiThreaded := v;
    }

    method SetInput(v: Option<JsonObject>)
      modifies this
      ensures Fields() == old(Fields()).(input := v)
    {
      input := v;
    }

    method SetOutput(v: Option<JsonObject>)
      modifies this
      ensures Fields() == old(Fields()).(output := v)
    {
      output := v;
    }

    method AddResource(r: string)
      modifies this
      ensures Fields() == WithResource(old(Fields()), r)
    {
      resources := resources + {JStr(r)};
    }

    method RemoveResource(r: string)
      modifies this
      ensures Fields() == WithoutResource(old(Fields()), r)
    {
      resources := resources - {JStr(r)};
    }

    /** Both `setResources` overloads: the set of the given names, replacing
        the old set entirely. */
    method SetResources(names: seq<string>)
      modifies this
      ensures Fields() == old(Fields()).(resources := set j | 0 <= j < |names| :: JStr(names[j]))
    {
      var s: set<Json> := {};
      var i := 0;
      while i < |names|
        invariant 0 <= i <= |names|
        invariant s == set j | 0 <= j < i :: JStr(names[j])
      {
        s := s + {JStr(names[i])};
        i := i + 1;
      }
      resources := s;
    }
  }

  /** The JSON constructor: one random UUID is drawn whether or not `id` is
      present; the record is built when the document is admissible. */
  method FromJson(c: JsonObject, uuids: UuidSource) returns (r: Result<ComponentInfoImpl, string>, ghost freshId: string)
    requires uuids.Valid()
    modifies uuids
    ensures uuids.Valid() && freshId !in old(uuids.issued) && uuids.issued == old(uuids.issued) + {freshId}
    ensures r.Success? <==> Parse(c, freshId).Success?
    ensures r.Success? ==> fresh(r.value) && r.value.Fields() == Parse(c, freshId).value
    ensures r.Failure? ==> r.error == Parse(c, freshId).error
  {
    var uuid := uuids.Next();
    freshId := uuid;
    var parsed := Parse(c, uuid);
    if parsed.Failure? {
      return Failure(parsed.error), freshId;
    }
    var info := new ComponentInfoImpl.FromInfo(parsed.value);
    r := Success(info);
  }
}
