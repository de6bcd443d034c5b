/**
 * JavaScript's reference semantics for the one place the editor mutates
 * state in place: arrays nested inside list items. A spread or `[...items]`
 * copies only the outer level, so a nested array stays one object that
 * every copy refers to, and `push` on it is seen through all of them.
 */
module SharedArrays {
  import opened Json
  import opened ListEditing

  /** A JavaScript array object: one growable sequence, possibly referenced from several places. */
  class JsArray {
    var elems: seq<JValue>

    constructor (s: seq<JValue>)
      ensures elems == s
    {
      elems := s;
    }

    /** `push`: append in place. */
    method Push(x: JValue)
      modifies this
      ensures elems == Appended(old(elems), x)
    {
      elems := elems + [x];
    }
  }

  /** A JavaScript object; its array-valued properties are held by reference, the others by value. */
  class JsObject {
    var props: map<string, JValue>
    var arrays: map<string, JsArray>

    constructor (props: map<string, JValue>, arrays: map<string, JsArray>)
      ensures this.props == props && this.arrays == arrays
    {
      this.props := props;
      this.arrays := arrays;
    }

    /** No property is both kinds, and no two properties share one array. */
    ghost predicate Valid()
      reads this
    {
      && props.Keys !! arrays.Keys
      && forall k1, k2 :: k1 in arrays && k2 in arrays && k1 != k2 ==> arrays[k1] != arrays[k2]
    }

    /** The current contents of the arrays the object holds. */
    function Contents(): (c: map<string, seq<JValue>>)
      reads this, arrays.Values
      ensures c.Keys == arrays.Keys
    {
      map k | k in arrays :: arrays[k].elems
    }

    /** The JSON value the object currently stands for. */
    function Value(): JValue
      reads this, arrays.Values
    {
      ObjectValue(props, Contents())
    }

    /** `this[key].push(x)`: the object now stands for its old value with the longer array under `key`. */
    method PushInto(key: string, x: JValue)
      requires Valid() && key in arrays
      modifies arrays[key]
      ensures arrays[key].elems == Appended(old(arrays[key].elems), x)
      ensures Value().fields == old(Value()).fields[key := JArr(old(arrays[key].elems) + [x])]
    {
      ghost var before := Contents();
      var target := arrays[key];
      target.Push(x);
      forall k | k in arrays && k != key ensures Contents()[k] == before[k] {
        assert arrays[k] != target;
      }
      assert Contents() == before[key := before[key] + [x]];
      ObjectValuePushed(props, before, key, x);
    }
  }

  /** An object's value from its plain properties and the contents of its arrays. */
  function ObjectValue(props: map<string, JValue>, contents: map<string, seq<JValue>>): (v: JValue)
    ensures v.JObj? && v.fields.Keys == props.Keys + contents.Keys
  {
    JObj(props + map k | k in contents :: JArr(contents[k]))
  }

  /** Growing one array grows that property of the object's value and nothing else. */
  lemma ObjectValuePushed(props: map<string, JValue>, contents: map<string, seq<JValue>>, key: string, x: JValue)
    requires key in contents
    ensures ObjectValue(props, contents[key := contents[key] + [x]]).fields
      == ObjectValue(props, contents).fields[key := JArr(contents[key] + [x])]
  {
  }

  /** The nested arrays reachable from a list of objects. */
  function ArraysOf(items: seq<JsObject>): set<JsArray>
    reads items
  {
    set o, a | o in items && a in o.arrays.Values :: a
  }

  /**
   * No other item of the list holds the array under `key` of item `index`
   * (a freshly parsed list has this shape).
   */
  ghost predicate OwnedAlone(items: seq<JsObject>, index: nat, key: string)
    reads items
    requires index < |items| && key in items[index].arrays
  {
    forall j :: 0 <= j < |items| && j != index ==> items[index].arrays[key] !in items[j].arrays.Values
  }

  /** The list of JSON values a list of objects currently stands for. */
  function ListValue(items: seq<JsObject>): (r: seq<JValue>)
    reads items, ArraysOf(items)
    ensures |r| == |items|
    ensures forall j :: 0 <= j < |items| ==> r[j] == items[j].Value()
  {
    seq(|items|, j reads items, ArraysOf(items) requires 0 <= j < |items| => items[j].Value())
  }

  /**
   * `const newItems = [...items]; newItems[index][key].push(x)`: a fresh
   * outer list holding the same item objects, then a push into the nested
   * array of one of them. The result stands for the pushed list value, and
   * the previous list `items`, which holds the same objects, now stands for
   * it too.
   */
  method PushNested(items: seq<JsObject>, index: nat, key: string, x: JValue) returns (newItems: seq<JsObject>)
    requires index < |items| && key in items[index].arrays
    requires items[index].Valid() && OwnedAlone(items, index, key)
    modifies items[index].arrays[key]
    ensures newItems == items
    ensures items[index].arrays[key].elems == Appended(old(items[index].arrays[key].elems), x)
    ensures HasArrayAt(old(ListValue(items)), index, key)
    ensures ListValue(newItems) == PushedAt(old(ListValue(items)), index, key, x)
    ensures ListValue(items) == ListValue(newItems)
  {
    ghost var before := ListValue(items);
    newItems := items;
    newItems[index].PushInto(key, x);
    forall j | 0 <= j < |items| && j != index
      ensures items[j].Value() == before[j]
    {
    }
  }
}
