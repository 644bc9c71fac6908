/** The fields selector: a consistent-hashing grouping that sends every
    message to exactly one connection, chosen from a hash of the values the
    message body holds on the grouped fields. The hash of the field map
    (Java's `HashMap.hashCode`) is a parameter: any function to a Java `int`. */
module FieldsSelection {
  import opened Common

  const NULL_POINTER: string := "NullPointerException"

  /** The grouped values of a body: every grouped field, with the body's value
      for it, or null when the body lacks it. */
  function GroupedValues(fieldNames: set<string>, body: JsonObject): (r: map<string, Json>)
    ensures r.Keys == fieldNames
    ensures forall f :: f in fieldNames && f in body ==> r[f] == body[f]
    ensures forall f :: f in fieldNames && f !in body ==> r[f] == JNull
  {
    map f | f in fieldNames :: GetValue(body, f)
  }

  /** `Math.abs(h % n)` with Java's truncating `%`: always an index into a
      list of n elements, since a Java list has at most `INT_MAX` elements and
      the remainder is then never the one `int` that `abs` leaves negative. */
  function SelectIndex(h: Int32, n: nat): (i: nat)
    requires 0 < n <= INT_MAX
    ensures i < n
    ensures i == JavaRem(h, n) || i == -JavaRem(h, n)
  {
    var rem := JavaRem(h, n);
    assert INT_MIN < rem <= INT_MAX;
    JavaAbs(rem)
  }

  /** The Java `String[]`/`JsonArray` walked by the constructor and by
      `setState`: the set of names in `items[..k]` that are strings. */
  function NamesOf(items: seq<Json>): set<string>
  {
    set j | 0 <= j < |items| && items[j].JStr? :: items[j].s
  }

  lemma NamesOfSnoc(items: seq<Json>, x: Json)
    ensures NamesOf(items + [x]) == NamesOf(items) + (if x.JStr? then {x.s} else {})
  {
    var xs := items + [x];
    forall n | n in NamesOf(xs)
      ensures n in NamesOf(items) + (if x.JStr? then {x.s} else {})
    {
      var j :| 0 <= j < |xs| && xs[j].JStr? && xs[j].s == n;
      if j < |items| {
        assert items[j] == xs[j];
      }
    }
    forall n | n in NamesOf(items)
      ensures n in NamesOf(xs)
    {
      var j :| 0 <= j < |items| && items[j].JStr? && items[j].s == n;
      assert xs[j] == items[j];
    }
    if x.JStr? {
      assert xs[|items|] == x;
    }
  }

  /** The length of the longest prefix of `items` made of strings: where a
      `(String)` cast would first fail. */
  function StringPrefix(items: seq<Json>): (k: nat)
    ensures k <= |items|
    ensures forall j :: 0 <= j < k ==> items[j].JStr?
    ensures k < |items| ==> !items[k].JStr?
  {
    if items == [] || !items[0].JStr? then 0 else 1 + StringPrefix(items[1..])
  }

  /** No element of the array is null (a null would become a null field name). */
  predicate NoNullFields(state: JsonObject)
  {
    GetValue(state, "fields").JArr? ==> forall j :: 0 <= j < |GetValue(state, "fields").items| ==> GetValue(state, "fields").items[j] != JNull
  }

  /** What `setState` leaves in `fieldNames`, and whether it completes:
      no `fields` array gives the empty set; an array of strings gives its
      strings; a non-string element stops it with a cast failure after the
      strings before it were added; a `fields` value that is not an array
      fails before anything is added. */
  function Restore(state: JsonObject): (r: Result<set<string>, set<string>>)
  {
    match GetValue(state, "fields")
    case JNull => Success({})
    case JArr(items) =>
      var k := StringPrefix(items);
      if k == |items| then Success(NamesOf(items)) else Failure(NamesOf(items[..k]))
    case _ => Failure({})
  }

  /** The names a `Restore` outcome carries, whether it completed or not. */
  function RestoredNames(r: Result<set<string>, set<string>>): set<string>
  {
    match r
    case Success(names) => names
    case Failure(names) => names
  }

  class FieldsSelector {
    /** `None` is the null the no-argument constructor leaves behind. */
    var fieldNames: Option<set<string>>

    /** For deserialisation: the field names arrive through `setState`. */
    constructor ()
      ensures fieldNames == None
    {
      fieldNames := None;
    }

    constructor FromNames(names: seq<string>)
      ensures fieldNames == Some(set j | 0 <= j < |names| :: names[j])
    {
      var s: set<string> := {};
      var i := 0;
      while i < |names|
        invariant 0 <= i <= |names|
        invariant s == set j | 0 <= j < i :: names[j]
      {
        s := s + {names[i]};
        i := i + 1;
      }
      fieldNames := Some(s);
    }

    constructor FromSet(names: set<string>)
      ensures fieldNames == Some(names)
    {
      fieldNames := Some(names);
    }

    /** `select`: exactly one connection, taken from `connections` at an index
      determined by the grouped values alone. A selector without field names
      throws on the null set before anything else; an empty list is the
      division by zero Java throws. */
    function Select<C>(body: JsonObject, connections: seq<C>, hash: map<string, Json> -> Int32): (r: Result<seq<C>, string>)
      reads this
      requires |connections| <= INT_MAX
      ensures fieldNames.None? ==> r == Failure(NULL_POINTER)
      ensures fieldNames.Some? ==> (connections == [] <==> r.Failure?)
      ensures r.Success? ==> |r.value| == 1 && r.value[0] in connections
    {
      if fieldNames.None? then Failure(NULL_POINTER)
      else if connections == [] then Failure("/ by zero")
      else
        var i := SelectIndex(hash(GroupedValues(fieldNames.value, body)), |connections|);
        Success(connections[i..i + 1])
    }

    /** `getState`: a `fields` array listing every field name once, in the
      order the set yields them; a selector without field names throws on
      the null set. */
    method GetState() returns (state: Result<JsonObject, string>)
      ensures fieldNames.None? ==> state == Failure(NULL_POINTER)
      ensures fieldNames.Some? ==> state.Success?
      ensures state.Success? ==> state.value.Keys == {"fields"} && state.value["fields"].JArr?
      ensures state.Success? ==> var items := state.value["fields"].items;
        && (forall j :: 0 <= j < |items| ==> items[j].JStr?)
        && NamesOf(items) == fieldNames.value
        && |items| == |fieldNames.value|
    {
      if fieldNames.None? {
        return Failure(NULL_POINTER);
      }
      var items: seq<Json> := [];
      var remaining := fieldNames.value;
      while remaining != {}
        invariant remaining <= fieldNames.value
        invariant forall j :: 0 <= j < |items| ==> items[j].JStr? && items[j].s !in remaining
        invariant NamesOf(items) + remaining == fieldNames.value
        invariant |items| + |remaining| == |fieldNames.value|
        decreases remaining
      {
        var f :| f in remaining;
        NamesOfSnoc(items, JStr(f));
        items := items + [JStr(f)];
        remaining := remaining - {f};
      }
      state := Success(map["fields" := JArr(items)]);
    }

    /** `setState`: the field names become exactly what `Restore` reads from
      the state; it reports failure where the Java code would throw. */
    method SetState(state: JsonObject) returns (outcome: Result<(), string>)
      requires NoNullFields(state)
      modifies this
      ensures fieldNames == Some(RestoredNames(Restore(state)))
      ensures outcome.Success? <==> Restore(state).Success?
    {
      fieldNames := Some({});
      var fields := GetValue(state, "fields");
      if fields == JNull {
        return Success(());
      }
      if !fields.JArr? {
        return Failure("ClassCastException");
      }
      var items := fields.items;
      var names: set<string> := {};
      var i := 0;
      while i < |items|
        invariant 0 <= i <= |items|
        invariant forall j :: 0 <= j < i ==> items[j].JStr?
        invariant names == NamesOf(items[..i])
        invariant fieldNames == Some(names)
      {
        if !items[i].JStr? {
          assert StringPrefix(items) == i;
          return Failure("ClassCastException");
        }
        assert items[..i + 1] == items[..i] + [items[i]];
        NamesOfSnoc(items[..i], items[i]);
        names := names + {items[i].s};
        fieldNames := Some(names);
        i := i + 1;
      }
      assert items[..i] == items;
      assert StringPrefix(items) == |items|;
      outcome := Success(());
    }
  }

  /** Two bodies that agree on every grouped field select the same
      connection, whatever else they hold. */
  lemma SelectByGroupedValues<C>(selector: FieldsSelector, b1: JsonObject, b2: JsonObject, connections: seq<C>, hash: map<string, Json> -> Int32)
    requires |connections| <= INT_MAX
    requires forall f :: selector.fieldNames.Some? && f in selector.fieldNames.value ==> GetValue(b1, f) == GetValue(b2, f)
    ensures selector.Select(b1, connections, hash) == selector.Select(b2, connections, hash)
  {
    if selector.fieldNames.None? {
      return;
    }
    var names := selector.fieldNames.value;
    assert GroupedValues(names, b1) == GroupedValues(names, b2) by {
      assert forall f :: f in names ==> GroupedValues(names, b1)[f] == GroupedValues(names, b2)[f];
    }
  }

  /** `setState(getState())` restores the same field names. */
  lemma StateRoundTrip(names: set<string>, items: seq<Json>)
    requires forall j :: 0 <= j < |items| ==> items[j].JStr?
    requires NamesOf(items) == names
    ensures NoNullFields(map["fields" := JArr(items)])
    ensures Restore(map["fields" := JArr(items)]) == Success(names)
  {
  }

  /** A state without a `fields` array (absent or null) restores no names. */
  lemma RestoreWithoutFields(state: JsonObject)
    requires "fields" !in state || state["fields"] == JNull
    ensures Restore(state) == Success({})
  {
  }
}
