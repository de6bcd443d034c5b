/**
 * The editor of a list of strings: the six top-level string sections and
 * the steps of a function. Besides the three list operations it decides,
 * from its title alone, whether the section can collapse, where the add
 * control sits and what the remove tooltip says.
 */
module StringListEditor {
  import opened Wrappers
  import opened Json
  import opened Schema
  import opened ListEditing

  /** handleAddItem: append an empty string. */
  function AddItem(items: seq<JValue>): (r: seq<JValue>)
    ensures |r| == |items| + 1
    ensures r[..|items|] == items && r[|items|] == JStr("")
  {
    Appended(items, JStr(""))
  }

  /**
   * handleItemChange: copy the list into a new array, then overwrite one
   * slot. The list passed in is a value, so it is left as it was.
   */
  method ChangeItem(items: seq<JValue>, index: nat, value: string) returns (r: seq<JValue>)
    requires index < |items|
    ensures |r| == |items|
    ensures r[index] == JStr(value)
    ensures forall j :: 0 <= j < |items| && j != index ==> r[j] == items[j]
  {
    var newItems := new JValue[|items|];
    var i := 0;
    while i < |items|
      invariant 0 <= i <= |items|
      invariant forall j :: 0 <= j < i ==> newItems[j] == items[j]
    {
      newItems[i] := items[i];
      i := i + 1;
    }
    newItems[index] := JStr(value);
    r := newItems[..];
  }

  /** Adding to a list of strings appends an empty string to its typed value. */
  lemma AddItemTyped(items: seq<JValue>, ss: seq<string>)
    requires DecodeList(items, DecodeString) == Some(ss)
    ensures DecodeList(AddItem(items), DecodeString) == Some(ss + [""])
  {
    DecodeAppended(items, DecodeString, ss, JStr(""), "");
  }

  /** Overwriting a slot of a list of strings overwrites the same slot of its typed value. */
  lemma ChangeItemTyped(items: seq<JValue>, ss: seq<string>, index: nat, value: string)
    requires DecodeList(items, DecodeString) == Some(ss) && index < |items|
    ensures DecodeList(items[index := JStr(value)], DecodeString) == Some(ss[index := value])
  {
    DecodeReplaced(items, DecodeString, ss, index, JStr(value), value);
  }

  /** handleRemoveItem on a list of strings removes the same position of its typed value. */
  lemma RemoveItemTyped(items: seq<JValue>, ss: seq<string>, index: int)
    requires DecodeList(items, DecodeString) == Some(ss)
    ensures DecodeList(RemovedAt(items, index), DecodeString) == Some(RemovedAt(ss, index))
  {
    DecodeRemoved(items, DecodeString, ss, index);
  }

  // ---------------------------------------------------------------------
  // What the title decides. An absent `isCollapsible` is `false`.

  /** `isCollapsible && !!title` */
  predicate Collapsible(isCollapsible: bool, title: string) {
    isCollapsible && title != ""
  }

  /** A titled top-level section asked to collapse can; the untitled steps list never can. */
  lemma CollapsibleOnlyWithTitle(k: SectionKey, isCollapsible: bool)
    ensures Collapsible(true, KeyName(k))
    ensures !Collapsible(isCollapsible, "")
    ensures Collapsible(isCollapsible, KeyName(k)) <==> isCollapsible
  {
  }

  datatype AddControl = HeaderAddButton | AddStepButton

  /**
   * The add controls rendered for a title and a list length: the card's
   * "Add" action when there is a title, and the body's "Add Step" button,
   * which two separate conditions render for a non-empty and for an
   * empty untitled list.
   */
  function AddControls(title: string, count: nat): (r: seq<AddControl>)
    ensures |r| == 1
    ensures r[0] == HeaderAddButton <==> title != ""
    ensures r[0] == AddStepButton <==> title == ""
  {
    (if title != "" then [HeaderAddButton] else [])
    + (if title == "" && count > 0 then [AddStepButton] else [])
    + (if title == "" && count == 0 then [AddStepButton] else [])
  }

  /** `title.slice(0, -1)`: every character but the last. */
  function DropLast(s: string): (r: string)
    ensures |s| > 0 ==> r + [s[|s| - 1]] == s
    ensures |s| == 0 ==> r == ""
  {
    if |s| == 0 then "" else s[..|s| - 1]
  }

  /** The remove button's tooltip: the title made singular by dropping its last character. */
  function RemoveTooltip(title: string): (r: string)
    ensures title != "" ==> r + [title[|title| - 1]] == "Remove " + title
    ensures title == "" ==> r == "Remove item"
  {
    if title != "" then "Remove " + DropLast(title) else "Remove item"
  }
}
