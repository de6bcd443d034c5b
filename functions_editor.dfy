/**
 * The editor of the Functions section. A function carries a nested list of
 * inputs (a sub-list editor), an outputs string and a list of steps (an
 * untitled string-list editor); all three are written back through the
 * function update, except that adding an input pushes in place.
 */
module FunctionsEditor {
  import opened Wrappers
  import opened Json
  import opened Schema
  import opened ListEditing
  import opened SharedArrays
  import StringListEditor

  /** The record handleAddItem appends. */
  const NewFunction: FunctionData := FunctionData("", "", [], "", [])
  /** The record handleAddInput pushes. */
  const NewInput: InputData := InputData("", "")

  /** handleAddItem */
  function AddItem(items: seq<JValue>): (r: seq<JValue>)
    ensures |r| == |items| + 1 && r[..|items|] == items
    ensures r[|items|] == JObj(map["name" := JStr(""), "purpose" := JStr(""), "inputs" := JArr([]), "outputs" := JStr(""), "steps" := JArr([])])
    ensures DecodeFunction(r[|items|]) == Some(NewFunction)
  {
    DecodeEncodeFunction(NewFunction);
    Appended(items, EncodeFunction(NewFunction))
  }

  /** The five edits handleItemChange receives: a field name and the value of that field. */
  datatype FunctionChange =
    | SetName(name: string)
    | SetPurpose(purpose: string)
    | SetInputs(inputs: seq<JValue>)
    | SetOutputs(outputs: string)
    | SetSteps(steps: seq<JValue>)

  function ChangeKey(ch: FunctionChange): string {
    match ch
    case SetName(_) => "name"
    case SetPurpose(_) => "purpose"
    case SetInputs(_) => "inputs"
    case SetOutputs(_) => "outputs"
    case SetSteps(_) => "steps"
  }

  function ChangeValue(ch: FunctionChange): JValue {
    match ch
    case SetName(s) => JStr(s)
    case SetPurpose(s) => JStr(s)
    case SetInputs(vs) => JArr(vs)
    case SetOutputs(s) => JStr(s)
    case SetSteps(vs) => JArr(vs)
  }

  /** The typed effect of an edit, when the new value is itself well formed. */
  function ApplyChange(x: FunctionData, ch: FunctionChange): Option<FunctionData> {
    match ch
    case SetName(s) => Some(x.(name := s))
    case SetPurpose(s) => Some(x.(purpose := s))
    case SetInputs(vs) =>
      var inputs :- DecodeList(vs, DecodeInput);
      Some(x.(inputs := inputs))
    case SetOutputs(s) => Some(x.(outputs := s))
    case SetSteps(vs) =>
      var steps :- DecodeList(vs, DecodeString);
      Some(x.(steps := steps))
  }

  /** handleItemChange */
  function ChangeItem(items: seq<JValue>, index: int, ch: FunctionChange): (r: seq<JValue>)
    ensures |r| == |items|
    ensures forall j :: 0 <= j < |items| && j != index ==> r[j] == items[j]
    ensures 0 <= index < |items| ==>
      r[index].JObj? && r[index].fields.Keys == Spread(items[index]).Keys + {ChangeKey(ch)} &&
      r[index].fields[ChangeKey(ch)] == ChangeValue(ch) &&
      forall k :: k in Spread(items[index]) && k != ChangeKey(ch) ==> r[index].fields[k] == Spread(items[index])[k]
  {
    UpdatedAt(items, index, ChangeKey(ch), ChangeValue(ch))
  }

  /** A well-formed function holds its inputs and steps as arrays that decode to its typed lists. */
  lemma FunctionArrays(item: JValue, x: FunctionData)
    requires DecodeFunction(item) == Some(x)
    ensures item.JObj? && "inputs" in item.fields && item.fields["inputs"].JArr?
    ensures "steps" in item.fields && item.fields["steps"].JArr?
    ensures DecodeList(item.fields["inputs"].elems, DecodeInput) == Some(x.inputs)
    ensures DecodeList(item.fields["steps"].elems, DecodeString) == Some(x.steps)
  {
    var ins := GetArray(item.fields, "inputs");
    var steps := GetArray(item.fields, "steps");
    assert ins.Some? && steps.Some?;
    var i := DecodeList(ins.value, DecodeInput);
    var ss := DecodeList(steps.value, DecodeString);
    assert i.Some? && ss.Some?;
    assert x.inputs == i.value && x.steps == ss.value;
  }

  /** Writing a well-formed value into a field of a well-formed function gives the function with that field set. */
  lemma ChangeDecodes(item: JValue, x: FunctionData, ch: FunctionChange, y: FunctionData)
    requires DecodeFunction(item) == Some(x) && ApplyChange(x, ch) == Some(y)
    ensures DecodeFunction(WithField(item, ChangeKey(ch), ChangeValue(ch))) == Some(y)
  {
    var m := item.fields[ChangeKey(ch) := ChangeValue(ch)];
    assert WithField(item, ChangeKey(ch), ChangeValue(ch)) == JObj(m);
    FunctionArrays(item, x);
    forall k | k in item.fields && k != ChangeKey(ch) ensures m[k] == item.fields[k] { }
    match ch
    case SetName(_) =>
      assert m["purpose"] == item.fields["purpose"] && m["inputs"] == item.fields["inputs"];
      assert m["outputs"] == item.fields["outputs"] && m["steps"] == item.fields["steps"];
    case SetPurpose(_) =>
      assert m["name"] == item.fields["name"] && m["inputs"] == item.fields["inputs"];
      assert m["outputs"] == item.fields["outputs"] && m["steps"] == item.fields["steps"];
    case SetInputs(_) =>
      assert m["name"] == item.fields["name"] && m["purpose"] == item.fields["purpose"];
      assert m["outputs"] == item.fields["outputs"] && m["steps"] == item.fields["steps"];
    case SetOutputs(_) =>
      assert m["name"] == item.fields["name"] && m["purpose"] == item.fields["purpose"];
      assert m["inputs"] == item.fields["inputs"] && m["steps"] == item.fields["steps"];
    case SetSteps(_) =>
      assert m["name"] == item.fields["name"] && m["purpose"] == item.fields["purpose"];
      assert m["inputs"] == item.fields["inputs"] && m["outputs"] == item.fields["outputs"];
  }

  /** Adding to a well-formed list appends the empty function to its typed value. */
  lemma AddItemTyped(items: seq<JValue>, fs: seq<FunctionData>)
    requires DecodeList(items, DecodeFunction) == Some(fs)
    ensures DecodeList(AddItem(items), DecodeFunction) == Some(fs + [NewFunction])
  {
    DecodeEncodeFunction(NewFunction);
    DecodeAppended(items, DecodeFunction, fs, EncodeFunction(NewFunction), NewFunction);
  }

  /** A well-formed edit of a well-formed list changes that function as the edit says and nothing else. */
  lemma ChangeItemTyped(items: seq<JValue>, fs: seq<FunctionData>, index: int, ch: FunctionChange, y: FunctionData)
    requires DecodeList(items, DecodeFunction) == Some(fs) && 0 <= index < |items|
    requires ApplyChange(fs[index], ch) == Some(y)
    ensures DecodeList(ChangeItem(items, index, ch), DecodeFunction) == Some(fs[index := y])
  {
    UpdatedIsReplaced(items, index, ChangeKey(ch), ChangeValue(ch));
    ChangeDecodes(items[index], fs[index], ch, y);
    DecodeReplaced(items, DecodeFunction, fs, index, WithField(items[index], ChangeKey(ch), ChangeValue(ch)), y);
  }

  /** handleRemoveItem on a well-formed list removes the same position of its typed value. */
  lemma RemoveItemTyped(items: seq<JValue>, fs: seq<FunctionData>, index: int)
    requires DecodeList(items, DecodeFunction) == Some(fs)
    ensures DecodeList(RemovedAt(items, index), DecodeFunction) == Some(RemovedAt(fs, index))
  {
    DecodeRemoved(items, DecodeFunction, fs, index);
  }

  /** The lists of function `i` of a well-formed list, which decode to its typed lists. */
  lemma ListsOf(items: seq<JValue>, fs: seq<FunctionData>, i: int)
    requires DecodeList(items, DecodeFunction) == Some(fs) && 0 <= i < |items|
    ensures HasArrayAt(items, i, "inputs") && HasArrayAt(items, i, "steps")
    ensures DecodeList(items[i].fields["inputs"].elems, DecodeInput) == Some(fs[i].inputs)
    ensures DecodeList(items[i].fields["steps"].elems, DecodeString) == Some(fs[i].steps)
  {
    FunctionArrays(items[i], fs[i]);
  }

  // ---------------------------------------------------------------------
  // The inputs sub-list

  datatype InputField = InputName | InputType

  function InputKey(f: InputField): string {
    match f
    case InputName => "name"
    case InputType => "type"
  }

  function SetInputField(x: InputData, f: InputField, value: string): InputData {
    match f
    case InputName => x.(name := value)
    case InputType => x.(typeName := value)
  }

  /** Writing a field of a well-formed input gives the input with that field set. */
  lemma InputFieldDecodes(v: JValue, x: InputData, f: InputField, value: string)
    requires DecodeInput(v) == Some(x)
    ensures DecodeInput(WithField(v, InputKey(f), JStr(value))) == Some(SetInputField(x, f, value))
  {
    var m := v.fields[InputKey(f) := JStr(value)];
    assert WithField(v, InputKey(f), JStr(value)) == JObj(m);
    match f {
      case InputName => assert m["type"] == v.fields["type"];
      case InputType => assert m["name"] == v.fields["name"];
    }
  }

  /**
   * A sub-list edit of one input, installed through the function update,
   * sets that field of that input of that function and nothing else.
   */
  lemma InputChangeTyped(items: seq<JValue>, fs: seq<FunctionData>, i: int, j: int, f: InputField, value: string)
    requires DecodeList(items, DecodeFunction) == Some(fs) && 0 <= i < |items|
    requires HasArrayAt(items, i, "inputs") && 0 <= j < |items[i].fields["inputs"].elems|
    ensures var inputs := fs[i].inputs;
      DecodeList(ChangeItem(items, i, SetInputs(UpdatedAt(items[i].fields["inputs"].elems, j, InputKey(f), JStr(value)))), DecodeFunction)
      == Some(fs[i := fs[i].(inputs := inputs[j := SetInputField(inputs[j], f, value)])])
  {
    ListsOf(items, fs, i);
    var vs := items[i].fields["inputs"].elems;
    var inputs := fs[i].inputs;
    var x := SetInputField(inputs[j], f, value);
    InputFieldDecodes(vs[j], inputs[j], f, value);
    UpdatedIsReplaced(vs, j, InputKey(f), JStr(value));
    DecodeReplaced(vs, DecodeInput, inputs, j, WithField(vs[j], InputKey(f), JStr(value)), x);
    ChangeItemTyped(items, fs, i, SetInputs(UpdatedAt(vs, j, InputKey(f), JStr(value))), fs[i].(inputs := inputs[j := x]));
  }

  /** Removing one input through the sub-list editor removes it from that function alone. */
  lemma InputRemoveTyped(items: seq<JValue>, fs: seq<FunctionData>, i: int, j: int)
    requires DecodeList(items, DecodeFunction) == Some(fs) && 0 <= i < |items|
    requires HasArrayAt(items, i, "inputs")
    ensures DecodeList(ChangeItem(items, i, SetInputs(RemovedAt(items[i].fields["inputs"].elems, j))), DecodeFunction)
      == Some(fs[i := fs[i].(inputs := RemovedAt(fs[i].inputs, j))])
  {
    ListsOf(items, fs, i);
    var vs := items[i].fields["inputs"].elems;
    DecodeRemoved(vs, DecodeInput, fs[i].inputs, j);
    ChangeItemTyped(items, fs, i, SetInputs(RemovedAt(vs, j)), fs[i].(inputs := RemovedAt(fs[i].inputs, j)));
  }

  // ---------------------------------------------------------------------
  // The outputs box and the steps editor

  /** Setting the outputs string of a typed function changes that field alone. */
  lemma ApplyOutputs(x: FunctionData, value: string)
    ensures ApplyChange(x, SetOutputs(value)) == Some(x.(outputs := value))
  {
  }

  /** Installing a well-formed list of steps sets the typed steps to its strings. */
  lemma ApplySteps(x: FunctionData, newSteps: seq<JValue>, ss: seq<string>)
    requires DecodeList(newSteps, DecodeString) == Some(ss)
    ensures ApplyChange(x, SetSteps(newSteps)) == Some(x.(steps := ss))
  {
  }

  /** An outputs edit replaces that function's outputs string and nothing else. */
  lemma OutputsEditTyped(items: seq<JValue>, fs: seq<FunctionData>, i: int, value: string)
    requires DecodeList(items, DecodeFunction) == Some(fs) && 0 <= i < |items|
    ensures DecodeList(ChangeItem(items, i, SetOutputs(value)), DecodeFunction) == Some(fs[i := fs[i].(outputs := value)])
  {
    ApplyOutputs(fs[i], value);
    ChangeItemTyped(items, fs, i, SetOutputs(value), fs[i].(outputs := value));
  }

  /** A list the steps editor hands back, installed through the function update, replaces that function's steps alone. */
  lemma StepsEditTyped(items: seq<JValue>, fs: seq<FunctionData>, i: int, newSteps: seq<JValue>, ss: seq<string>)
    requires DecodeList(items, DecodeFunction) == Some(fs) && 0 <= i < |items|
    requires DecodeList(newSteps, DecodeString) == Some(ss)
    ensures DecodeList(ChangeItem(items, i, SetSteps(newSteps)), DecodeFunction) == Some(fs[i := fs[i].(steps := ss)])
  {
    ApplySteps(fs[i], newSteps, ss);
    ChangeItemTyped(items, fs, i, SetSteps(newSteps), fs[i].(steps := ss));
  }

  /** Adding a step through the untitled string-list editor appends an empty step to that function alone. */
  lemma AddStepTyped(items: seq<JValue>, fs: seq<FunctionData>, i: int)
    requires DecodeList(items, DecodeFunction) == Some(fs) && 0 <= i < |items|
    ensures HasArrayAt(items, i, "steps")
    ensures DecodeList(ChangeItem(items, i, SetSteps(StringListEditor.AddItem(items[i].fields["steps"].elems))), DecodeFunction)
      == Some(fs[i := fs[i].(steps := fs[i].steps + [""])])
  {
    ListsOf(items, fs, i);
    var steps := items[i].fields["steps"].elems;
    StringListEditor.AddItemTyped(steps, fs[i].steps);
    StepsEditTyped(items, fs, i, StringListEditor.AddItem(steps), fs[i].steps + [""]);
  }

  /** Removing a step through the string-list editor removes it from that function alone. */
  lemma RemoveStepTyped(items: seq<JValue>, fs: seq<FunctionData>, i: int, j: int)
    requires DecodeList(items, DecodeFunction) == Some(fs) && 0 <= i < |items|
    ensures HasArrayAt(items, i, "steps")
    ensures DecodeList(ChangeItem(items, i, SetSteps(RemovedAt(items[i].fields["steps"].elems, j))), DecodeFunction)
      == Some(fs[i := fs[i].(steps := RemovedAt(fs[i].steps, j))])
  {
    ListsOf(items, fs, i);
    var steps := items[i].fields["steps"].elems;
    StringListEditor.RemoveItemTyped(steps, fs[i].steps, j);
    StepsEditTyped(items, fs, i, RemovedAt(steps, j), RemovedAt(fs[i].steps, j));
  }

  // ---------------------------------------------------------------------
  // The in-place push handler

  /**
   * handleAddInput: a shallow copy of the list, then a push onto the inputs
   * array of function `funcIndex`, which the previous list shares.
   */
  method AddInput(items: seq<JsObject>, funcIndex: nat) returns (newItems: seq<JsObject>)
    requires funcIndex < |items| && "inputs" in items[funcIndex].arrays
    requires items[funcIndex].Valid() && OwnedAlone(items, funcIndex, "inputs")
    modifies items[funcIndex].arrays["inputs"]
    ensures HasArrayAt(old(ListValue(items)), funcIndex, "inputs")
    ensures ListValue(newItems) == PushedAt(old(ListValue(items)), funcIndex, "inputs", EncodeInput(NewInput))
    ensures ListValue(items) == ListValue(newItems)
  {
    newItems := PushNested(items, funcIndex, "inputs", EncodeInput(NewInput));
  }

  /** Installing a well-formed inputs list with the empty input appended appends it to the typed function. */
  lemma AppendedAppliesInput(vs: seq<JValue>, x: FunctionData)
    requires DecodeList(vs, DecodeInput) == Some(x.inputs)
    ensures ApplyChange(x, SetInputs(Appended(vs, EncodeInput(NewInput)))) == Some(x.(inputs := x.inputs + [NewInput]))
  {
    assert DecodeInput(EncodeInput(NewInput)) == Some(NewInput);
    DecodeAppended(vs, DecodeInput, x.inputs, EncodeInput(NewInput), NewInput);
  }

  /** The value the input push leaves is the function update installing the longer list. */
  lemma AddInputIsChange(items: seq<JValue>, i: int)
    requires HasArrayAt(items, i, "inputs")
    ensures PushedAt(items, i, "inputs", EncodeInput(NewInput))
      == ChangeItem(items, i, SetInputs(Appended(items[i].fields["inputs"].elems, EncodeInput(NewInput))))
  {
    PushIsUpdateWithAppended(items, i, "inputs", EncodeInput(NewInput));
  }

  /** On a well-formed list, the value a push leaves appends the empty input to that function alone. */
  lemma AddInputTyped(items: seq<JValue>, fs: seq<FunctionData>, i: int)
    requires DecodeList(items, DecodeFunction) == Some(fs) && 0 <= i < |items|
    ensures HasArrayAt(items, i, "inputs")
    ensures DecodeList(PushedAt(items, i, "inputs", EncodeInput(NewInput)), DecodeFunction)
      == Some(fs[i := fs[i].(inputs := fs[i].inputs + [NewInput])])
  {
    ListsOf(items, fs, i);
    var vs := items[i].fields["inputs"].elems;
    AppendedAppliesInput(vs, fs[i]);
    AddInputIsChange(items, i);
    ChangeItemTyped(items, fs, i, SetInputs(Appended(vs, EncodeInput(NewInput))), fs[i].(inputs := fs[i].inputs + [NewInput]));
  }
}
