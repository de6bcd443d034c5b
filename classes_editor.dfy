/**
 * The editor of the Classes section. A class carries two nested lists,
 * attributes and methods, each edited by a sub-list editor whose edits are
 * installed as the new value of that field through the class update. Adding
 * an attribute or a method instead pushes into the nested array in place.
 */
module ClassesEditor {
  import opened Wrappers
  import opened Json
  import opened Schema
  import opened ListEditing
  import opened SharedArrays

  /** The record handleAddItem appends. */
  const NewClass: ClassData := ClassData("", "", [], [])
  /** The records handleAddAttribute and handleAddMethod push. */
  const NewAttribute: AttributeData := AttributeData("", "")
  const NewMethod: MethodData := MethodData("", "")

  /** handleAddItem */
  function AddItem(items: seq<JValue>): (r: seq<JValue>)
    ensures |r| == |items| + 1 && r[..|items|] == items
    ensures r[|items|] == JObj(map["name" := JStr(""), "purpose" := JStr(""), "attributes" := JArr([]), "methods" := JArr([])])
    ensures DecodeClass(r[|items|]) == Some(NewClass)
  {
    DecodeEncodeClass(NewClass);
    Appended(items, EncodeClass(NewClass))
  }

  /** The four edits handleItemChange receives: a field name and the value of that field. */
  datatype ClassChange =
    | SetName(name: string)
    | SetPurpose(purpose: string)
    | SetAttributes(attributes: seq<JValue>)
    | SetMethods(methods: seq<JValue>)

  function ChangeKey(ch: ClassChange): string {
    match ch
    case SetName(_) => "name"
    case SetPurpose(_) => "purpose"
    case SetAttributes(_) => "attributes"
    case SetMethods(_) => "methods"
  }

  function ChangeValue(ch: ClassChange): JValue {
    match ch
    case SetName(s) => JStr(s)
    case SetPurpose(s) => JStr(s)
    case SetAttributes(vs) => JArr(vs)
    case SetMethods(vs) => JArr(vs)
  }

  /** The typed effect of an edit, when the new value is itself well formed. */
  function ApplyChange(x: ClassData, ch: ClassChange): Option<ClassData> {
    match ch
    case SetName(s) => Some(x.(name := s))
    case SetPurpose(s) => Some(x.(purpose := s))
    case SetAttributes(vs) =>
      var attributes :- DecodeList(vs, DecodeAttribute);
      Some(x.(attributes := attributes))
    case SetMethods(vs) =>
      var methods :- DecodeList(vs, DecodeMethod);
      Some(x.(methods := methods))
  }

  /** handleItemChange */
  function ChangeItem(items: seq<JValue>, index: int, ch: ClassChange): (r: seq<JValue>)
    ensures |r| == |items|
    ensures forall j :: 0 <= j < |items| && j != index ==> r[j] == items[j]
    ensures 0 <= index < |items| ==>
      r[index].JObj? && r[index].fields.Keys == Spread(items[index]).Keys + {ChangeKey(ch)} &&
      r[index].fields[ChangeKey(ch)] == ChangeValue(ch) &&
      forall k :: k in Spread(items[index]) && k != ChangeKey(ch) ==> r[index].fields[k] == Spread(items[index])[k]
  {
    UpdatedAt(items, index, ChangeKey(ch), ChangeValue(ch))
  }

  /** Writing a well-formed value into a field of a well-formed class gives the class with that field set. */
  lemma ChangeDecodes(item: JValue, x: ClassData, ch: ClassChange, y: ClassData)
    requires DecodeClass(item) == Some(x) && ApplyChange(x, ch) == Some(y)
    ensures DecodeClass(WithField(item, ChangeKey(ch), ChangeValue(ch))) == Some(y)
  {
    var m := item.fields[ChangeKey(ch) := ChangeValue(ch)];
    assert WithField(item, ChangeKey(ch), ChangeValue(ch)) == JObj(m);
    assert GetArray(item.fields, "attributes").Some? && GetArray(item.fields, "methods").Some?;
    match ch
    case SetName(_) =>
      assert m["purpose"] == item.fields["purpose"] && m["attributes"] == item.fields["attributes"] && m["methods"] == item.fields["methods"];
    case SetPurpose(_) =>
      assert m["name"] == item.fields["name"] && m["attributes"] == item.fields["attributes"] && m["methods"] == item.fields["methods"];
    case SetAttributes(_) =>
      assert m["name"] == item.fields["name"] && m["purpose"] == item.fields["purpose"] && m["methods"] == item.fields["methods"];
    case SetMethods(_) =>
      assert m["name"] == item.fields["name"] && m["purpose"] == item.fields["purpose"] && m["attributes"] == item.fields["attributes"];
  }

  /** Adding to a well-formed list appends the empty class to its typed value. */
  lemma AddItemTyped(items: seq<JValue>, cs: seq<ClassData>)
    requires DecodeList(items, DecodeClass) == Some(cs)
    ensures DecodeList(AddItem(items), DecodeClass) == Some(cs + [NewClass])
  {
    DecodeEncodeClass(NewClass);
    DecodeAppended(items, DecodeClass, cs, EncodeClass(NewClass), NewClass);
  }

  /** A well-formed edit of a well-formed list changes that class as the edit says and nothing else. */
  lemma ChangeItemTyped(items: seq<JValue>, cs: seq<ClassData>, index: int, ch: ClassChange, y: ClassData)
    requires DecodeList(items, DecodeClass) == Some(cs) && 0 <= index < |items|
    requires ApplyChange(cs[index], ch) == Some(y)
    ensures DecodeList(ChangeItem(items, index, ch), DecodeClass) == Some(cs[index := y])
  {
    UpdatedIsReplaced(items, index, ChangeKey(ch), ChangeValue(ch));
    ChangeDecodes(items[index], cs[index], ch, y);
    DecodeReplaced(items, DecodeClass, cs, index, WithField(items[index], ChangeKey(ch), ChangeValue(ch)), y);
  }

  /** handleRemoveItem on a well-formed list removes the same position of its typed value. */
  lemma RemoveItemTyped(items: seq<JValue>, cs: seq<ClassData>, index: int)
    requires DecodeList(items, DecodeClass) == Some(cs)
    ensures DecodeList(RemovedAt(items, index), DecodeClass) == Some(RemovedAt(cs, index))
  {
    DecodeRemoved(items, DecodeClass, cs, index);
  }

  // ---------------------------------------------------------------------
  // The attribute and method sub-lists

  datatype AttributeField = AttributeName | AttributeType
  datatype MethodField = MethodName | MethodPurpose

  function AttributeKey(f: AttributeField): string {
    match f
    case AttributeName => "name"
    case AttributeType => "type"
  }

  function MethodKey(f: MethodField): string {
    match f
    case MethodName => "name"
    case MethodPurpose => "purpose"
  }

  function SetAttributeField(a: AttributeData, f: AttributeField, value: string): AttributeData {
    match f
    case AttributeName => a.(name := value)
    case AttributeType => a.(typeName := value)
  }

  function SetMethodField(m: MethodData, f: MethodField, value: string): MethodData {
    match f
    case MethodName => m.(name := value)
    case MethodPurpose => m.(purpose := value)
  }

  /** A well-formed class holds its two lists as arrays that decode to its typed lists. */
  lemma ClassArrays(item: JValue, x: ClassData)
    requires DecodeClass(item) == Some(x)
    ensures item.JObj? && "attributes" in item.fields && item.fields["attributes"].JArr?
    ensures "methods" in item.fields && item.fields["methods"].JArr?
    ensures DecodeList(item.fields["attributes"].elems, DecodeAttribute) == Some(x.attributes)
    ensures DecodeList(item.fields["methods"].elems, DecodeMethod) == Some(x.methods)
  {
    var attrs := GetArray(item.fields, "attributes");
    var methods := GetArray(item.fields, "methods");
    assert attrs.Some? && methods.Some?;
    var a := DecodeList(attrs.value, DecodeAttribute);
    var ms := DecodeList(methods.value, DecodeMethod);
    assert a.Some? && ms.Some?;
    assert x.attributes == a.value && x.methods == ms.value;
  }

  /** The lists of class `c` of a well-formed list, which decode to its typed lists. */
  lemma AttributesOf(items: seq<JValue>, cs: seq<ClassData>, c: int)
    requires DecodeList(items, DecodeClass) == Some(cs) && 0 <= c < |items|
    ensures HasArrayAt(items, c, "attributes") && HasArrayAt(items, c, "methods")
    ensures DecodeList(items[c].fields["attributes"].elems, DecodeAttribute) == Some(cs[c].attributes)
    ensures DecodeList(items[c].fields["methods"].elems, DecodeMethod) == Some(cs[c].methods)
  {
    ClassArrays(items[c], cs[c]);
  }

  /**
   * A sub-list edit of one attribute, installed through the class update,
   * sets that field of that attribute of that class and nothing else.
   */
  lemma AttributeChangeTyped(items: seq<JValue>, cs: seq<ClassData>, c: int, j: int, f: AttributeField, value: string)
    requires DecodeList(items, DecodeClass) == Some(cs) && 0 <= c < |items|
    requires HasArrayAt(items, c, "attributes") && 0 <= j < |items[c].fields["attributes"].elems|
    ensures var attrs := cs[c].attributes;
      DecodeList(ChangeItem(items, c, SetAttributes(UpdatedAt(items[c].fields["attributes"].elems, j, AttributeKey(f), JStr(value)))), DecodeClass)
      == Some(cs[c := cs[c].(attributes := attrs[j := SetAttributeField(attrs[j], f, value)])])
  {
    AttributesOf(items, cs, c);
    var vs := items[c].fields["attributes"].elems;
    var attrs := cs[c].attributes;
    var a := SetAttributeField(attrs[j], f, value);
    assert DecodeAttribute(vs[j]) == Some(attrs[j]);
    var m := vs[j].fields[AttributeKey(f) := JStr(value)];
    assert WithField(vs[j], AttributeKey(f), JStr(value)) == JObj(m);
    match f {
      case AttributeName => assert m["type"] == vs[j].fields["type"];
      case AttributeType => assert m["name"] == vs[j].fields["name"];
    }
    assert DecodeAttribute(JObj(m)) == Some(a);
    UpdatedIsReplaced(vs, j, AttributeKey(f), JStr(value));
    DecodeReplaced(vs, DecodeAttribute, attrs, j, JObj(m), a);
    ChangeItemTyped(items, cs, c, SetAttributes(UpdatedAt(vs, j, AttributeKey(f), JStr(value))), cs[c].(attributes := attrs[j := a]));
  }

  /** Removing one attribute through the sub-list editor removes it from that class alone. */
  lemma AttributeRemoveTyped(items: seq<JValue>, cs: seq<ClassData>, c: int, j: int)
    requires DecodeList(items, DecodeClass) == Some(cs) && 0 <= c < |items|
    requires HasArrayAt(items, c, "attributes")
    ensures DecodeList(ChangeItem(items, c, SetAttributes(RemovedAt(items[c].fields["attributes"].elems, j))), DecodeClass)
      == Some(cs[c := cs[c].(attributes := RemovedAt(cs[c].attributes, j))])
  {
    AttributesOf(items, cs, c);
    var vs := items[c].fields["attributes"].elems;
    DecodeRemoved(vs, DecodeAttribute, cs[c].attributes, j);
    ChangeItemTyped(items, cs, c, SetAttributes(RemovedAt(vs, j)), cs[c].(attributes := RemovedAt(cs[c].attributes, j)));
  }

  /**
   * A sub-list edit of one method, installed through the class update,
   * sets that field of that method of that class and nothing else.
   */
  lemma MethodChangeTyped(items: seq<JValue>, cs: seq<ClassData>, c: int, j: int, f: MethodField, value: string)
    requires DecodeList(items, DecodeClass) == Some(cs) && 0 <= c < |items|
    requires HasArrayAt(items, c, "methods") && 0 <= j < |items[c].fields["methods"].elems|
    ensures var methods := cs[c].methods;
      DecodeList(ChangeItem(items, c, SetMethods(UpdatedAt(items[c].fields["methods"].elems, j, MethodKey(f), JStr(value)))), DecodeClass)
      == Some(cs[c := cs[c].(methods := methods[j := SetMethodField(methods[j], f, value)])])
  {
    AttributesOf(items, cs, c);
    var vs := items[c].fields["methods"].elems;
    var methods := cs[c].methods;
    var x := SetMethodField(methods[j], f, value);
    assert DecodeMethod(vs[j]) == Some(methods[j]);
    var m := vs[j].fields[MethodKey(f) := JStr(value)];
    assert WithField(vs[j], MethodKey(f), JStr(value)) == JObj(m);
    match f {
      case MethodName => assert m["purpose"] == vs[j].fields["purpose"];
      case MethodPurpose => assert m["name"] == vs[j].fields["name"];
    }
    assert DecodeMethod(JObj(m)) == Some(x);
    UpdatedIsReplaced(vs, j, MethodKey(f), JStr(value));
    DecodeReplaced(vs, DecodeMethod, methods, j, JObj(m), x);
    ChangeItemTyped(items, cs, c, SetMethods(UpdatedAt(vs, j, MethodKey(f), JStr(value))), cs[c].(methods := methods[j := x]));
  }

  /** Removing one method through the sub-list editor removes it from that class alone. */
  lemma MethodRemoveTyped(items: seq<JValue>, cs: seq<ClassData>, c: int, j: int)
    requires DecodeList(items, DecodeClass) == Some(cs) && 0 <= c < |items|
    requires HasArrayAt(items, c, "methods")
    ensures DecodeList(ChangeItem(items, c, SetMethods(RemovedAt(items[c].fields["methods"].elems, j))), DecodeClass)
      == Some(cs[c := cs[c].(methods := RemovedAt(cs[c].methods, j))])
  {
    AttributesOf(items, cs, c);
    var vs := items[c].fields["methods"].elems;
    DecodeRemoved(vs, DecodeMethod, cs[c].methods, j);
    ChangeItemTyped(items, cs, c, SetMethods(RemovedAt(vs, j)), cs[c].(methods := RemovedAt(cs[c].methods, j)));
  }

  // ---------------------------------------------------------------------
  // The in-place push handlers

  /**
   * handleAddAttribute: a shallow copy of the list, then a push onto the
   * attributes array of class `classIndex`, which the previous list shares.
   */
  method AddAttribute(items: seq<JsObject>, classIndex: nat) returns (newItems: seq<JsObject>)
    requires classIndex < |items| && "attributes" in items[classIndex].arrays
    requires items[classIndex].Valid() && OwnedAlone(items, classIndex, "attributes")
    modifies items[classIndex].arrays["attributes"]
    ensures HasArrayAt(old(ListValue(items)), classIndex, "attributes")
    ensures ListValue(newItems) == PushedAt(old(ListValue(items)), classIndex, "attributes", EncodeAttribute(NewAttribute))
    ensures ListValue(items) == ListValue(newItems)
  {
    newItems := PushNested(items, classIndex, "attributes", EncodeAttribute(NewAttribute));
  }

  /** handleAddMethod: the same shallow copy and in-place push, onto the methods array. */
  method AddMethod(items: seq<JsObject>, classIndex: nat) returns (newItems: seq<JsObject>)
    requires classIndex < |items| && "methods" in items[classIndex].arrays
    requires items[classIndex].Valid() && OwnedAlone(items, classIndex, "methods")
    modifies items[classIndex].arrays["methods"]
    ensures HasArrayAt(old(ListValue(items)), classIndex, "methods")
    ensures ListValue(newItems) == PushedAt(old(ListValue(items)), classIndex, "methods", EncodeMethod(NewMethod))
    ensures ListValue(items) == ListValue(newItems)
  {
    newItems := PushNested(items, classIndex, "methods", EncodeMethod(NewMethod));
  }

  /** Installing a well-formed attribute list with the empty attribute appended appends it to the typed class. */
  lemma AppendedAppliesAttribute(vs: seq<JValue>, x: ClassData)
    requires DecodeList(vs, DecodeAttribute) == Some(x.attributes)
    ensures ApplyChange(x, SetAttributes(Appended(vs, EncodeAttribute(NewAttribute)))) == Some(x.(attributes := x.attributes + [NewAttribute]))
  {
    assert DecodeAttribute(EncodeAttribute(NewAttribute)) == Some(NewAttribute);
    DecodeAppended(vs, DecodeAttribute, x.attributes, EncodeAttribute(NewAttribute), NewAttribute);
  }

  /** The value the attribute push leaves is the class update installing the longer list. */
  lemma AddAttributeIsChange(items: seq<JValue>, c: int)
    requires HasArrayAt(items, c, "attributes")
    ensures PushedAt(items, c, "attributes", EncodeAttribute(NewAttribute))
      == ChangeItem(items, c, SetAttributes(Appended(items[c].fields["attributes"].elems, EncodeAttribute(NewAttribute))))
  {
    PushIsUpdateWithAppended(items, c, "attributes", EncodeAttribute(NewAttribute));
  }

  /** On a well-formed list, the value a push leaves appends the empty attribute to that class alone. */
  lemma AddAttributeTyped(items: seq<JValue>, cs: seq<ClassData>, c: int)
    requires DecodeList(items, DecodeClass) == Some(cs) && 0 <= c < |items|
    ensures HasArrayAt(items, c, "attributes")
    ensures DecodeList(PushedAt(items, c, "attributes", EncodeAttribute(NewAttribute)), DecodeClass)
      == Some(cs[c := cs[c].(attributes := cs[c].attributes + [NewAttribute])])
  {
    AttributesOf(items, cs, c);
    var vs := items[c].fields["attributes"].elems;
    var longer := Appended(vs, EncodeAttribute(NewAttribute));
    var y := cs[c].(attributes := cs[c].attributes + [NewAttribute]);
    AppendedAppliesAttribute(vs, cs[c]);
    AddAttributeIsChange(items, c);
    ChangeItemTyped(items, cs, c, SetAttributes(longer), y);
  }

  /** Installing a well-formed method list with the empty method appended appends it to the typed class. */
  lemma AppendedAppliesMethod(vs: seq<JValue>, x: ClassData)
    requires DecodeList(vs, DecodeMethod) == Some(x.methods)
    ensures ApplyChange(x, SetMethods(Appended(vs, EncodeMethod(NewMethod)))) == Some(x.(methods := x.methods + [NewMethod]))
  {
    assert DecodeMethod(EncodeMethod(NewMethod)) == Some(NewMethod);
    DecodeAppended(vs, DecodeMethod, x.methods, EncodeMethod(NewMethod), NewMethod);
  }

  /** The value the method push leaves is the class update installing the longer list. */
  lemma AddMethodIsChange(items: seq<JValue>, c: int)
    requires HasArrayAt(items, c, "methods")
    ensures PushedAt(items, c, "methods", EncodeMethod(NewMethod))
      == ChangeItem(items, c, SetMethods(Appended(items[c].fields["methods"].elems, EncodeMethod(NewMethod))))
  {
    PushIsUpdateWithAppended(items, c, "methods", EncodeMethod(NewMethod));
  }

  /** On a well-formed list, the value a push leaves appends the empty method to that class alone. */
  lemma AddMethodTyped(items: seq<JValue>, cs: seq<ClassData>, c: int)
    requires DecodeList(items, DecodeClass) == Some(cs) && 0 <= c < |items|
    ensures HasArrayAt(items, c, "methods")
    ensures DecodeList(PushedAt(items, c, "methods", EncodeMethod(NewMethod)), DecodeClass)
      == Some(cs[c := cs[c].(methods := cs[c].methods + [NewMethod])])
  {
    AttributesOf(items, cs, c);
    var vs := items[c].fields["methods"].elems;
    var longer := Appended(vs, EncodeMethod(NewMethod));
    var y := cs[c].(methods := cs[c].methods + [NewMethod]);
    AppendedAppliesMethod(vs, cs[c]);
    AddMethodIsChange(items, c);
    ChangeItemTyped(items, cs, c, SetMethods(longer), y);
  }
}
