/**
 * The editor of the Variables section: a list of {name, type,
 * initial_value} records. Every edit writes the text of an input box, so
 * an edited `initial_value` is stored as a string whatever it held before.
 */
module VariablesEditor {
  import opened Wrappers
  import opened Json
  import opened Schema
  import opened ListEditing

  datatype VariableField = NameField | TypeField | InitialValueField

  function FieldKey(f: VariableField): string {
    match f
    case NameField => "name"
    case TypeField => "type"
    case InitialValueField => "initial_value"
  }

  /** The typed effect of writing `value` into one field of a variable. */
  function SetField(x: VariableData, f: VariableField, value: string): VariableData {
    match f
    case NameField => x.(name := value)
    case TypeField => x.(typeName := value)
    case InitialValueField => x.(initialValue := TextValue(value))
  }

  /** The record handleAddItem appends. */
  const NewVariable: VariableData := VariableData("", "", TextValue(""))

  /** handleAddItem */
  function AddItem(items: seq<JValue>): (r: seq<JValue>)
    ensures |r| == |items| + 1 && r[..|items|] == items
    ensures r[|items|] == JObj(map["name" := JStr(""), "type" := JStr(""), "initial_value" := JStr("")])
    ensures DecodeVariable(r[|items|]) == Some(NewVariable)
  {
    DecodeEncodeVariable(NewVariable);
    Appended(items, EncodeVariable(NewVariable))
  }

  /** handleItemChange, with the text an input box delivers. */
  function ChangeItem(items: seq<JValue>, index: int, f: VariableField, value: string): (r: seq<JValue>)
    ensures |r| == |items|
    ensures forall j :: 0 <= j < |items| && j != index ==> r[j] == items[j]
    ensures 0 <= index < |items| ==>
      r[index].JObj? && r[index].fields.Keys == Spread(items[index]).Keys + {FieldKey(f)} &&
      r[index].fields[FieldKey(f)] == JStr(value) &&
      forall k :: k in Spread(items[index]) && k != FieldKey(f) ==> r[index].fields[k] == Spread(items[index])[k]
  {
    UpdatedAt(items, index, FieldKey(f), JStr(value))
  }

  /** Writing a field of a well-formed variable gives the well-formed variable with that field set. */
  lemma SetFieldDecodes(item: JValue, x: VariableData, f: VariableField, value: string)
    requires DecodeVariable(item) == Some(x)
    ensures DecodeVariable(WithField(item, FieldKey(f), JStr(value))) == Some(SetField(x, f, value))
  {
    var m := item.fields[FieldKey(f) := JStr(value)];
    assert WithField(item, FieldKey(f), JStr(value)) == JObj(m);
    match f
    case NameField => assert m["type"] == item.fields["type"];
    case TypeField => assert m["name"] == item.fields["name"];
    case InitialValueField => assert m["name"] == item.fields["name"] && m["type"] == item.fields["type"];
  }

  /** Adding to a well-formed list appends the empty variable to its typed value. */
  lemma AddItemTyped(items: seq<JValue>, vs: seq<VariableData>)
    requires DecodeList(items, DecodeVariable) == Some(vs)
    ensures DecodeList(AddItem(items), DecodeVariable) == Some(vs + [NewVariable])
  {
    DecodeEncodeVariable(NewVariable);
    DecodeAppended(items, DecodeVariable, vs, EncodeVariable(NewVariable), NewVariable);
  }

  /** An edit of a well-formed list sets that field of that variable and nothing else. */
  lemma ChangeItemTyped(items: seq<JValue>, vs: seq<VariableData>, index: int, f: VariableField, value: string)
    requires DecodeList(items, DecodeVariable) == Some(vs) && 0 <= index < |items|
    ensures DecodeList(ChangeItem(items, index, f, value), DecodeVariable) == Some(vs[index := SetField(vs[index], f, value)])
  {
    UpdatedIsReplaced(items, index, FieldKey(f), JStr(value));
    SetFieldDecodes(items[index], vs[index], f, value);
    DecodeReplaced(items, DecodeVariable, vs, index, WithField(items[index], FieldKey(f), JStr(value)), SetField(vs[index], f, value));
  }

  /** handleRemoveItem on a well-formed list removes the same position of its typed value. */
  lemma RemoveItemTyped(items: seq<JValue>, vs: seq<VariableData>, index: int)
    requires DecodeList(items, DecodeVariable) == Some(vs)
    ensures DecodeList(RemovedAt(items, index), DecodeVariable) == Some(RemovedAt(vs, index))
  {
    DecodeRemoved(items, DecodeVariable, vs, index);
  }

  /** The text the initial-value box shows: `String(item.initial_value)`. */
  function ShownInitialValue(item: JValue): string
    requires item.JObj?
  {
    ToText(Lookup(item.fields, "initial_value"))
  }

  /**
   * After an edit of `initial_value` the stored value is the typed string,
   * even where it was a number or a boolean, and the box shows that string.
   */
  lemma InitialValueEditStoresText(items: seq<JValue>, index: int, value: string)
    requires 0 <= index < |items|
    ensures ChangeItem(items, index, InitialValueField, value)[index].fields["initial_value"] == JStr(value)
    ensures ShownInitialValue(ChangeItem(items, index, InitialValueField, value)[index]) == value
  {
  }

  /** A number held as an initial value is shown in decimal, and an edit turns it into text. */
  lemma NumberBecomesTextOnEdit(item: JValue, x: VariableData, n: int, value: string)
    requires DecodeVariable(item) == Some(x) && x.initialValue == NumberValue(n)
    ensures item.JObj? && ShownInitialValue(item) == IntToString(n)
    ensures DecodeVariable(WithField(item, "initial_value", JStr(value))) == Some(x.(initialValue := TextValue(value)))
  {
    assert item.fields["initial_value"] == JNum(n) by {
      assert DecodeInitialValue(item.fields["initial_value"]) == Some(NumberValue(n));
    }
    SetFieldDecodes(item, x, InitialValueField, value);
  }
}
