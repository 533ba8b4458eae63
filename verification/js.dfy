/** JavaScript values as the forge exchange sees them: JSON documents, the
    `undefined` of a missing property, and the truthiness tests the code
    applies to them (`!prompt`, `data.error || ...`). */
module Js {

  /** `None` is JavaScript's `undefined`. */
  datatype Option<+T> = None | Some(value: T)

  /** A JSON document as `JSON.parse` yields it and `JSON.stringify` writes it.
      Object members keep their textual order. */
  datatype Json =
    | JNull
    | JBool(b: bool)
    | JNumber(n: real)
    | JString(s: string)
    | JArray(items: seq<Json>)
    | JObject(members: seq<(string, Json)>)

  /** JavaScript truthiness of a value that may be `undefined`. JSON has no
      NaN, so the falsy values are exactly undefined, null, false, 0 and "". */
  predicate Truthy(v: Option<Json>)
    ensures Truthy(v) <==> v.Some? && v.value !in {JNull, JBool(false), JNumber(0.0), JString("")}
  {
    match v
    case None => false
    case Some(j) =>
      match j
      case JNull => false
      case JBool(b) => b
      case JNumber(n) => n != 0.0
      case JString(s) => s != ""
      case JArray(_) => true
      case JObject(_) => true
  }

  /** `(key, value)` is the last member named `key`. */
  predicate LastWith(members: seq<(string, Json)>, key: string, value: Json) {
    exists i :: 0 <= i < |members| && members[i] == (key, value)
      && forall j :: i < j < |members| ==> members[j].0 != key
  }

  /** The member named `key` of an object literal. When a name repeats,
      `JSON.parse` keeps the last occurrence, so the search runs from the end. */
  function Member(members: seq<(string, Json)>, key: string): (r: Option<Json>)
    ensures r.None? <==> forall i :: 0 <= i < |members| ==> members[i].0 != key
    ensures r.Some? ==> LastWith(members, key, r.value)
  {
    if |members| == 0 then None
    else if members[|members| - 1].0 == key then
      var r := members[|members| - 1].1;
      assert members[|members| - 1] == (key, r);
      Some(r)
    else
      var init := members[..|members| - 1];
      assert members == init + [members[|members| - 1]];
      var r := Member(init, key);
      if r.Some? then LastWithExtends(init, members[|members| - 1], key, r.value); r
      else
        assert forall j :: 0 <= j < |init| ==> init[j] == members[j];
        r
  }

  /** A member of another name appended after the last `key` keeps it last. */
  lemma LastWithExtends(init: seq<(string, Json)>, m: (string, Json), key: string, value: Json)
    requires m.0 != key && LastWith(init, key, value)
    ensures LastWith(init + [m], key, value)
  {
    var i :| 0 <= i < |init| && init[i] == (key, value)
             && forall j :: i < j < |init| ==> init[j].0 != key;
    var all := init + [m];
    assert all[i] == (key, value);
    forall j | i < j < |all|
      ensures all[j].0 != key
    {
      if j < |init| {
        assert all[j] == init[j];
      }
    }
  }

  /** An object's own member `key`, read as `value.key` on a value that is
      not null; every other value answers `undefined` here. That is
      JavaScript's answer for the names `prompt` and `error`. It is not for
      `length`, which arrays and strings have as a number: the one reader
      of `length` (`DevServer.LogThrows`) only asks whether converting it
      to text throws, and a number's conversion never does. Reading a
      property of null throws, which callers handle before calling this. */
  function Get(j: Json, key: string): (r: Option<Json>)
    ensures r.None? <==> !j.JObject? || forall i :: 0 <= i < |j.members| ==> j.members[i].0 != key
    ensures r.Some? ==> j.JObject?
    ensures r.Some? ==> LastWith(j.members, key, r.value)
  {
    match j
    case JObject(members) => Member(members, key)
    case _ => None
  }

  /** A name has only one last member. */
  lemma LastWithUnique(members: seq<(string, Json)>, key: string, v: Json, w: Json)
    requires LastWith(members, key, v) && LastWith(members, key, w)
    ensures v == w
  {
    var i :| 0 <= i < |members| && members[i] == (key, v)
             && forall j :: i < j < |members| ==> members[j].0 != key;
    var k :| 0 <= k < |members| && members[k] == (key, w)
             && forall j :: k < j < |members| ==> members[j].0 != key;
    assert i == k;
  }

  /** Appending a member to an object: a member of the same name overrides
      every earlier one, a member of another name is invisible to `key`. */
  lemma LastMemberWins(members: seq<(string, Json)>, key: string, name: string, value: Json)
    ensures name == key ==> Get(JObject(members + [(name, value)]), key) == Some(value)
    ensures name != key ==> Get(JObject(members + [(name, value)]), key) == Get(JObject(members), key)
  {
    var all := members + [(name, value)];
    assert all[..|all| - 1] == members;
  }

  /** Whether JavaScript's string conversion (a template literal `${v}`,
      `new Error(v)`) throws on a parsed JSON value. An object converts
      through `toString` and then `valueOf`: an own `toString` member hides
      the inherited method and, being data, is not callable, and the
      inherited `valueOf` returns the object itself, so the conversion
      throws a TypeError. An array converts by joining its elements (null
      ones as ""), so it throws exactly when an element does. Primitives
      always convert. */
  predicate ToStringThrows(j: Json)
    ensures ToStringThrows(j) ==> j.JObject? || j.JArray?
    ensures j.JObject? ==>
              (ToStringThrows(j) <==> exists i :: 0 <= i < |j.members| && j.members[i].0 == "toString")
  {
    match j
    case JObject(members) => Member(members, "toString").Some?
    case JArray(items) => exists i :: 0 <= i < |items| && ToStringThrows(items[i])
    case _ => false
  }

  /** Only objects and arrays can fail to convert, and those are truthy: a
      value that makes a template literal throw always passes a `!value`
      guard. */
  lemma ThrowingValuesAreTruthy(j: Json)
    ensures ToStringThrows(j) ==> Truthy(Some(j)) && (j.JObject? || j.JArray?)
  {
  }

  /** How the conversion behaves on small values: an own `toString` throws
      whatever it holds, an own `valueOf` alone does not, an array throws
      through a nested element, and null elements are harmless. */
  lemma ConversionExamples(v: Json)
    ensures ToStringThrows(JObject([("toString", v)]))
    ensures !ToStringThrows(JObject([("valueOf", v)]))
    ensures ToStringThrows(JArray([JNull, JArray([JObject([("toString", v)])])]))
    ensures !ToStringThrows(JArray([JNull, JString("toString")]))
  {
    var inner := JArray([JObject([("toString", v)])]);
    assert ToStringThrows(inner.items[0]);
    assert JArray([JNull, inner]).items[1] == inner;
    var harmless := [JNull, JString("toString")];
    assert forall i :: 0 <= i < |harmless| ==> !ToStringThrows(harmless[i]);
  }
}
