/**
 * The three list operations every section editor is built from, on the
 * dynamic values the editor holds: append a template (`[...items, x]`),
 * replace one field of one item (`items.map` with an object spread) and
 * drop one position (`items.filter` on the index). Items are positional:
 * they have no identity other than their index.
 */
module ListEditing {
  import opened Wrappers
  import opened Json
  import opened Schema

  /** `[...items, x]` */
  function Appended<T>(items: seq<T>, x: T): (r: seq<T>)
    ensures |r| == |items| + 1
    ensures r[..|items|] == items && r[|items|] == x
  {
    items + [x]
  }

  /**
   * `items.map((item, i) => i === index ? { ...item, [key]: v } : item)`,
   * walking the list as `map` does and counting the index down.
   */
  function UpdatedAt(items: seq<JValue>, index: int, key: string, v: JValue): (r: seq<JValue>)
    ensures |r| == |items|
    ensures forall j :: 0 <= j < |items| && j != index ==> r[j] == items[j]
    ensures 0 <= index < |items| ==> r[index] == WithField(items[index], key, v)
  {
    if items == [] then []
    else
      var rest := UpdatedAt(items[1..], index - 1, key, v);
      assert forall j :: 1 <= j < |items| && j != index ==> rest[j - 1] == items[j];
      [if index == 0 then WithField(items[0], key, v) else items[0]] + rest
  }

  /** `items.filter((_, i) => i !== index)`, walking the list as `filter` does. */
  function RemovedAt<T>(items: seq<T>, index: int): (r: seq<T>)
    ensures 0 <= index < |items| ==> r == items[..index] + items[index + 1..]
    ensures !(0 <= index < |items|) ==> r == items
  {
    if items == [] then []
    else
      var rest := RemovedAt(items[1..], index - 1);
      if index == 0 then
        assert rest == items[1..];
        rest
      else
        ConsRemoved(items, index);
        [items[0]] + rest
  }

  /** Removing a later position from the tail and putting the head back in front is removing it from the list. */
  lemma ConsRemoved<T>(items: seq<T>, index: int)
    ensures 0 < index < |items| ==>
      [items[0]] + (items[1..][..index - 1] + items[1..][index..]) == items[..index] + items[index + 1..]
  {
    if 0 < index < |items| {
      assert items[1..][..index - 1] == items[1..index];
      assert items[1..][index..] == items[index + 1..];
      assert [items[0]] + items[1..index] == items[..index];
    }
  }

  /** Removal shifts every later item down by one place and keeps the earlier ones. */
  lemma RemoveReindexes<T>(items: seq<T>, index: int)
    requires 0 <= index < |items|
    ensures |RemovedAt(items, index)| == |items| - 1
    ensures forall j :: 0 <= j < index ==> RemovedAt(items, index)[j] == items[j]
    ensures forall j :: index <= j < |items| - 1 ==> RemovedAt(items, index)[j] == items[j + 1]
  {
  }

  /** Removing the item just added restores the list. */
  lemma RemoveUndoesAppend<T>(items: seq<T>, x: T)
    ensures RemovedAt(Appended(items, x), |items|) == items
  {
    assert Appended(items, x)[..|items|] == items;
  }

  /** Writing the value a field already holds changes nothing. */
  lemma UpdateWithSameValue(items: seq<JValue>, index: int, key: string)
    requires 0 <= index < |items| && items[index].JObj? && key in items[index].fields
    ensures UpdatedAt(items, index, key, items[index].fields[key]) == items
  {
    WithFieldOnObject(items[index].fields, key, items[index].fields[key]);
  }

  /** Of two writes to the same field of the same item, the later one wins. */
  lemma UpdateTwiceLastWins(items: seq<JValue>, index: int, key: string, v: JValue, w: JValue)
    ensures UpdatedAt(UpdatedAt(items, index, key, v), index, key, w) == UpdatedAt(items, index, key, w)
  {
    var once := UpdatedAt(items, index, key, v);
    if 0 <= index < |items| {
      assert Spread(once[index]) == Spread(items[index])[key := v];
      assert WithField(once[index], key, w) == WithField(items[index], key, w);
    }
  }

  /** The item at `index` has an array under `key` (the push handlers rely on it). */
  predicate HasArrayAt(items: seq<JValue>, index: int, key: string) {
    0 <= index < |items| && items[index].JObj? && key in items[index].fields && items[index].fields[key].JArr?
  }

  /**
   * The list value that `items[index][key].push(x)` leaves: item `index`
   * with `x` appended to its `key` array, every other item as it was.
   */
  function PushedAt(items: seq<JValue>, index: int, key: string, x: JValue): (r: seq<JValue>)
    requires HasArrayAt(items, index, key)
    ensures |r| == |items|
    ensures forall j :: 0 <= j < |items| && j != index ==> r[j] == items[j]
    ensures r[index].JObj? && r[index].fields.Keys == items[index].fields.Keys
    ensures r[index].fields[key] == JArr(Appended(items[index].fields[key].elems, x))
    ensures forall k :: k in items[index].fields && k != key ==> r[index].fields[k] == items[index].fields[k]
  {
    var item := items[index].fields;
    items[index := JObj(item[key := JArr(item[key].elems + [x])])]
  }

  /** The value a push leaves is the value of updating that field to the longer array. */
  lemma PushIsUpdateWithAppended(items: seq<JValue>, index: int, key: string, x: JValue)
    requires HasArrayAt(items, index, key)
    ensures PushedAt(items, index, key, x) == UpdatedAt(items, index, key, JArr(Appended(items[index].fields[key].elems, x)))
  {
  }

  // ---------------------------------------------------------------------
  // The three operations on the typed view of a well-formed list

  /** Appending a well-formed item to a well-formed list appends its typed value. */
  lemma DecodeAppended<T>(vs: seq<JValue>, dec: JValue -> Option<T>, xs: seq<T>, v: JValue, x: T)
    requires DecodeList(vs, dec) == Some(xs) && dec(v) == Some(x)
    ensures DecodeList(Appended(vs, v), dec) == Some(Appended(xs, x))
  {
    DecodeListPointwise(vs, dec, xs);
    DecodeListPointwise(Appended(vs, v), dec, Appended(xs, x));
  }

  /** Removing a position of a well-formed list removes the same position of its typed value. */
  lemma DecodeRemoved<T>(vs: seq<JValue>, dec: JValue -> Option<T>, xs: seq<T>, index: int)
    requires DecodeList(vs, dec) == Some(xs)
    ensures DecodeList(RemovedAt(vs, index), dec) == Some(RemovedAt(xs, index))
  {
    if 0 <= index < |vs| {
      var rv, rx := RemovedAt(vs, index), RemovedAt(xs, index);
      RemoveReindexes(vs, index);
      RemoveReindexes(xs, index);
      forall j | 0 <= j < |rv| ensures dec(rv[j]) == Some(rx[j]) {
        if j < index {
          assert rv[j] == vs[j] && rx[j] == xs[j];
        } else {
          assert rv[j] == vs[j + 1] && rx[j] == xs[j + 1];
        }
      }
      DecodeListPointwise(rv, dec, rx);
    }
  }

  /** Replacing one item of a well-formed list by a well-formed one replaces its typed value. */
  lemma DecodeReplaced<T>(vs: seq<JValue>, dec: JValue -> Option<T>, xs: seq<T>, index: int, v: JValue, x: T)
    requires DecodeList(vs, dec) == Some(xs) && 0 <= index < |vs| && dec(v) == Some(x)
    ensures DecodeList(vs[index := v], dec) == Some(xs[index := x])
  {
    DecodeListPointwise(vs, dec, xs);
    DecodeListPointwise(vs[index := v], dec, xs[index := x]);
  }

  /** An in-range update is the replacement of one item by its spread-with-field copy. */
  lemma UpdatedIsReplaced(items: seq<JValue>, index: int, key: string, v: JValue)
    requires 0 <= index < |items|
    ensures UpdatedAt(items, index, key, v) == items[index := WithField(items[index], key, v)]
  {
  }
}
