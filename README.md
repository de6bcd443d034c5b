# Vibe++ JSON editor: a verified model of its core

The Vibe++ editor keeps a structured description of a program as one JSON
document. The document holds a header and ten list sections: Imports,
Settings, Variables, Classes, Functions, Conditions, Loops, Errors, Flow and
Comments. The editor shows the document both as raw text and as a
structured form.

This project models the parts of the editor that decide what the document
becomes:

- **The application shell** (`VibeApp`):
  - the structure gate that parsed JSON must pass;
  - the normaliser that completes a parsed object into a full document;
  - the four state cells (raw text, document, parse error and the
    "collapse all" flag), together with the actions that update them.
- **The structured editor**:
  - `SectionCollapse` holds the order of the sections, their per-section
    collapse flags, the master broadcast and the single toggles;
  - `StructureEditor` replaces one section or one header field, and
    chooses the editor each section is rendered with.
- **The section editors**:
  - `StringListEditor`, `VariablesEditor`, `ClassesEditor` and
    `FunctionsEditor`, with the sub-list editors for attributes, methods,
    inputs and steps;
  - the three in-place `push` handlers, which mutate a nested array that
    the previous list shares.
- **The data model** (`Schema`, `Constants`): the record types and the
  three enumerations, the built-in empty and sample documents, and the
  option lists of the header.

## How it is modelled

The editor works on what `JSON.parse` returns, which is not necessarily a
well-typed document. The normaliser passes through any array, including one
with malformed items. These dynamic values are therefore modelled as
`Json.JValue`. The JavaScript operators the core applies to them are written
out:

- truthiness;
- `typeof`;
- the `in` operator;
- `Array.isArray`;
- object spread (including the indexed keys that spreading an array or a
  string yields);
- `String(v)`.

The typed records of `types.ts` live in `Schema`. A decoder there
recognises the well-formed values, and it is proved to invert the encoder
(`Schema.DecodeEncodeDocument`).

Every list operation is stated twice:

- on the dynamic list, exactly as the source computes it;
- as a lemma saying what the operation does to the typed list it decodes
  to (the `...Typed` lemmas).

The parts of the source that change state step by step are classes with
`modifies` clauses:

- the application cells (`VibeApp.App`);
- the collapse flags (`SectionCollapse.CollapseState`), whose initialiser
  and master effect loop over the section order as the source does;
- the nested arrays that `push` mutates (`SharedArrays.JsArray`, held by
  reference from `SharedArrays.JsObject`).

`StringListEditor.ChangeItem` copies into a fresh array and then assigns
one slot, as the source does.

`JSON.parse` and `JSON.stringify(_, null, 2)` are the two functions an
`App` is built with. The source calls them as library code.

## Model

| member | source | states |
|---|---|---|
| Json.ArrayHasNoNamedKey | App.tsx:11 | `'Header' in arr` is false for every array: an array's own keys are indices and `length` |
| Json.Spread | App.tsx:28 | spreading an object copies its fields; spreading null, a boolean or a number copies nothing; spreading an array or a string yields index keys only |
| Json.WithField | components/sections/VariablesEditor.tsx:22-24 | `{...item, [key]: v}` holds the spread keys plus `key`, has `v` at `key`, and keeps every other spread property |
| Json.WithFieldOnObject | components/sections/VariablesEditor.tsx:23 | on an object that already has `key`, the spread-with-field is a plain field update, and writing the old value back returns the same object |
| Json.NatToString | components/sections/VariablesEditor.tsx:68 | `String(n)` of a natural number is a string of digits with no leading zero (other than "0" itself) whose decimal value is `n` |
| Json.DecimalSpellingUnique | components/sections/VariablesEditor.tsx:68 | every canonical digit string whose decimal value is `n` is the spelling `String(n)` writes, so the spelling is determined by the number |
| Json.NatToStringInjective | components/sections/VariablesEditor.tsx:68 | distinct natural numbers have distinct spellings |
| Json.IntToString | components/sections/VariablesEditor.tsx:68 | `String(n)` of an integer: for `n >= 0` a canonical digit string of value `n`; for `n < 0` a "-" followed by a canonical, non-zero digit string of value `-n` |
| Json.IntToStringInjective | components/sections/VariablesEditor.tsx:68 | distinct integers print as distinct strings |
| Json.JsString | components/sections/VariablesEditor.tsx:68 | `String(v)` of a string is that string |
| Json.ToText | components/sections/VariablesEditor.tsx:68 | `String(undefined)` is "undefined", and `String(s)` of a string is `s` |
| Schema.ComplexityNamesExact | types.ts:13-17 | a complexity level is one of exactly the three strings Beginner, Intermediate and Advanced, and each names exactly one level |
| Schema.ConfidenceNamesExact | types.ts:19-23 | a confidence is one of exactly the three strings High, Medium and Low, and each names exactly one level |
| Schema.KeyNameInjective | types.ts:68-80 | each section key has one name; distinct keys have distinct names |
| Schema.SectionKeysExact | types.ts:68-91 | there are exactly eleven section keys, and every key except Header names a list section |
| Schema.SectionKeyCount | types.ts:68-80 | the set of section keys has eleven elements |
| Schema.DecodeListPointwise | types.ts:70-79 | a list decodes exactly when every element decodes, to the element-wise results (both directions) |
| Schema.DecodeEncodeList | types.ts:70-79 | decoding an encoded list gives back the list when the element decoder inverts the element encoder |
| Schema.DecodeEncodeHeader | types.ts:25-30 | a header is recovered from its four-field JSON object |
| Schema.LanguageIsFreeText | types.ts:26 | any string whatsoever is accepted as `Original_Language` |
| Schema.DecodeEncodeStrings | types.ts:70 | a string list is recovered from its JSON array |
| Schema.DecodeEncodeVariable | types.ts:32-36 | a variable, with a string, number or boolean initial value, is recovered from its JSON object |
| Schema.DecodeEncodeClass | types.ts:48-53 | a class, with its attribute and method lists, is recovered from its JSON object |
| Schema.DecodeEncodeFunction | types.ts:60-66 | a function, with its inputs, outputs string and steps, is recovered from its JSON object |
| Schema.DecodeEncodeVariables | types.ts:72 | a list of variables is recovered from its JSON array |
| Schema.DecodeEncodeClasses | types.ts:73 | a list of classes is recovered from its JSON array |
| Schema.DecodeEncodeFunctions | types.ts:74 | a list of functions is recovered from its JSON array |
| Schema.DecodeEncodeHeaderSection | types.ts:69 | the Header property of an encoded document decodes to the header |
| Schema.DecodeEncodeSetupSections | types.ts:70-71 | the Imports and Settings properties decode to the two lists |
| Schema.DecodeEncodeVariablesSection | types.ts:72 | the Variables property of an encoded document decodes to the variables |
| Schema.DecodeEncodeClassesSection | types.ts:73 | the Classes property decodes to the classes |
| Schema.DecodeEncodeFunctionsSection | types.ts:74 | the Functions property decodes to the functions |
| Schema.DecodeEncodeControlSections | types.ts:75-77 | the Conditions, Loops and Errors properties decode to the three lists |
| Schema.DecodeEncodeNoteSections | types.ts:78-79 | the Flow and Comments properties decode to the two lists |
| Schema.DecodeFromSections | types.ts:68-80 | an object whose header and ten sections decode is the document made of them |
| Schema.DecodeEncodeDocument | types.ts:68-80 | every typed document is recovered from its JSON encoding |
| Schema.EncodedDocumentShape | types.ts:68-80 | an encoded document has exactly the eleven keys, a header with exactly the four fields, and arrays in all ten list sections |
| Schema.EncodedKeys | types.ts:68-80 | an encoded document has exactly the eleven section keys |
| Constants.OptionListsExact | constants.ts:4-6 | each option list is exactly its enumeration's values, in declaration order, and contains every member's name |
| Constants.LanguageOptionsExact | constants.ts:4 | the language options are the eight names from Python to Other, in order |
| Constants.LevelOptionsExact | constants.ts:5-6 | the complexity and confidence options are their three names, in order |
| Constants.EmptyHeaderFields | constants.ts:66-71 | the empty header is Python, an empty snippet, Beginner and Medium |
| Constants.EmptyListsAreEmpty | constants.ts:72-81 | all ten list sections of the empty template are empty arrays |
| Constants.SampleHeaderDiffersOnlyInSnippet | constants.ts:9-14 | the sample header is the empty header with only the code snippet changed |
| Constants.ConstantsWellFormed | constants.ts:8-82 | both built-in documents decode to their typed values and have the complete shape |
| Constants.SampleInitialValuesMix | constants.ts:17-20 | the sample's two variables start from the number 0 and the string "guest" |
| ListEditing.Appended | components/sections/StringListEditor.tsx:27 | `[...items, x]` is one longer, keeps every earlier item and ends with `x` |
| ListEditing.UpdatedAt | components/sections/VariablesEditor.tsx:22-24 | the `map` update keeps the length and every other item; an in-range index gets its spread-with-field copy |
| ListEditing.RemovedAt | components/sections/VariablesEditor.tsx:29 | the `filter` on the index drops exactly that position when it is in range, and returns the list unchanged otherwise |
| ListEditing.RemoveReindexes | components/sections/VariablesEditor.tsx:29 | after a removal the list is one shorter, the earlier items stay and the later ones shift down one place |
| ListEditing.RemoveUndoesAppend | components/sections/StringListEditor.tsx:26-38 | removing the item just added restores the list |
| ListEditing.UpdateWithSameValue | components/sections/VariablesEditor.tsx:22-24 | writing the value a field already holds changes nothing |
| ListEditing.UpdateTwiceLastWins | components/sections/VariablesEditor.tsx:22-24 | of two writes to the same field of the same item, the later one wins |
| ListEditing.PushedAt | components/sections/ClassesEditor.tsx:78 | the value a nested push leaves: item `index` has `x` appended to its `key` array, and everything else stays as it was |
| ListEditing.PushIsUpdateWithAppended | components/sections/ClassesEditor.tsx:76-80 | the value a push leaves equals the field update that installs the longer array |
| ListEditing.DecodeAppended | components/sections/ClassesEditor.tsx:60-62 | appending a well-formed item to a well-formed list appends its typed value |
| ListEditing.DecodeRemoved | components/sections/ClassesEditor.tsx:71-73 | removing a position of a well-formed list removes the same position of its typed value |
| ListEditing.DecodeReplaced | components/sections/ClassesEditor.tsx:64-69 | replacing one item by a well-formed one replaces that typed item |
| ListEditing.UpdatedIsReplaced | components/sections/ClassesEditor.tsx:65-67 | an in-range `map` update is the replacement of that one item by its spread-with-field copy |
| SharedArrays.JsArray.Push | components/sections/ClassesEditor.tsx:78 | `push` appends to the array in place |
| SharedArrays.JsObject.PushInto | components/sections/ClassesEditor.tsx:78 | pushing into one array property changes that array alone; the object now stands for its old value with the longer array |
| SharedArrays.PushNested | components/sections/ClassesEditor.tsx:76-80 | the shallow copy is the same objects. After the push it stands for `PushedAt` of the old list value, and so does the previous list, which shares the nested array |
| StringListEditor.AddItem | components/sections/StringListEditor.tsx:26-28 | one more item, an empty string, after the unchanged earlier items |
| StringListEditor.ChangeItem | components/sections/StringListEditor.tsx:30-34 | the copy has the same length, `value` at `index` and every other item unchanged |
| StringListEditor.AddItemTyped | components/sections/StringListEditor.tsx:26-28 | adding appends "" to the typed string list |
| StringListEditor.ChangeItemTyped | components/sections/StringListEditor.tsx:30-34 | overwriting a slot overwrites the same typed slot |
| StringListEditor.RemoveItemTyped | components/sections/StringListEditor.tsx:36-38 | removal removes the same position of the typed list, and an out-of-range index leaves it unchanged |
| StringListEditor.CollapsibleOnlyWithTitle | components/sections/StringListEditor.tsx:50 | a section can collapse exactly when it is asked to and has a title; the untitled steps list never can |
| StringListEditor.AddControls | components/sections/StringListEditor.tsx:44-82 | exactly one add control is rendered: the header action when there is a title, otherwise the "Add Step" button |
| StringListEditor.DropLast | components/sections/StringListEditor.tsx:65 | `slice(0, -1)` is the string without its last character, and "" for "" |
| StringListEditor.RemoveTooltip | components/sections/StringListEditor.tsx:65 | the tooltip is "Remove " followed by the title minus its last character, or "Remove item" when there is no title |
| VariablesEditor.AddItem | components/sections/VariablesEditor.tsx:17-19 | appends `{name:"", type:"", initial_value:""}`, which decodes to the empty variable |
| VariablesEditor.ChangeItem | components/sections/VariablesEditor.tsx:21-26 | only that field of item `index` changes; the length and every other item are kept |
| VariablesEditor.SetFieldDecodes | components/sections/VariablesEditor.tsx:23 | writing a field of a well-formed variable sets that typed field and nothing else |
| VariablesEditor.AddItemTyped | components/sections/VariablesEditor.tsx:17-19 | adding appends the empty variable to the typed list |
| VariablesEditor.ChangeItemTyped | components/sections/VariablesEditor.tsx:21-26 | an edit sets that field of that typed variable and nothing else |
| VariablesEditor.RemoveItemTyped | components/sections/VariablesEditor.tsx:28-30 | removal removes the same typed position, and is a no-op out of range |
| VariablesEditor.InitialValueEditStoresText | components/sections/VariablesEditor.tsx:66-70 | after an edit of `initial_value` the stored value is the typed string, and the box shows exactly it |
| VariablesEditor.NumberBecomesTextOnEdit | components/sections/VariablesEditor.tsx:66-70 | a numeric initial value is shown in decimal, and an edit turns it into text |
| ClassesEditor.AddItem | components/sections/ClassesEditor.tsx:60-62 | appends `{name:"", purpose:"", attributes:[], methods:[]}`, which decodes to the empty class |
| ClassesEditor.ChangeItem | components/sections/ClassesEditor.tsx:64-69 | only that field of class `index` changes; the length and every other class are kept |
| ClassesEditor.ChangeDecodes | components/sections/ClassesEditor.tsx:64-69 | a well-formed value written into a field of a well-formed class gives the typed class with that field set |
| ClassesEditor.AddItemTyped | components/sections/ClassesEditor.tsx:60-62 | adding appends the empty class to the typed list |
| ClassesEditor.ChangeItemTyped | components/sections/ClassesEditor.tsx:64-69 | a well-formed edit changes that typed class as the edit says and leaves the others alone |
| ClassesEditor.RemoveItemTyped | components/sections/ClassesEditor.tsx:71-73 | removal removes the same typed position |
| ClassesEditor.ClassArrays | types.ts:48-53 | a well-formed class holds its attributes and methods as arrays that decode to its typed lists |
| ClassesEditor.AttributesOf | components/sections/ClassesEditor.tsx:130 | the attribute and method arrays of class `c` decode to its typed lists |
| ClassesEditor.AttributeChangeTyped | components/sections/ClassesEditor.tsx:23-28 | a sub-list edit of one attribute, installed through the class update, sets that field of that attribute of that class and nothing else |
| ClassesEditor.AttributeRemoveTyped | components/sections/ClassesEditor.tsx:30-32 | removing an attribute through the sub-list removes it from that class alone |
| ClassesEditor.MethodChangeTyped | components/sections/ClassesEditor.tsx:23-28 | a sub-list edit of one method sets that field of that method of that class and nothing else |
| ClassesEditor.MethodRemoveTyped | components/sections/ClassesEditor.tsx:30-32 | removing a method through the sub-list removes it from that class alone |
| ClassesEditor.AddAttribute | components/sections/ClassesEditor.tsx:76-80 | the new list stands for the old one with `{name:"", type:""}` pushed onto class `classIndex`'s attributes; the previous list shows the same push |
| ClassesEditor.AddMethod | components/sections/ClassesEditor.tsx:83-87 | the new list stands for the old one with `{name:"", purpose:""}` pushed onto class `classIndex`'s methods; the previous list shows the same push |
| ClassesEditor.AppendedAppliesAttribute | components/sections/ClassesEditor.tsx:131 | installing the attribute list with the empty attribute appended appends it to the typed class |
| ClassesEditor.AddAttributeIsChange | components/sections/ClassesEditor.tsx:76-80 | the value the attribute push leaves is the class update installing the longer list |
| ClassesEditor.AddAttributeTyped | components/sections/ClassesEditor.tsx:76-80 | on a well-formed list, the push appends the empty attribute to that class alone |
| ClassesEditor.AppendedAppliesMethod | components/sections/ClassesEditor.tsx:150 | installing the method list with the empty method appended appends it to the typed class |
| ClassesEditor.AddMethodIsChange | components/sections/ClassesEditor.tsx:83-87 | the value the method push leaves is the class update installing the longer list |
| ClassesEditor.AddMethodTyped | components/sections/ClassesEditor.tsx:83-87 | on a well-formed list, the push appends the empty method to that class alone |
| FunctionsEditor.AddItem | components/sections/FunctionsEditor.tsx:60-62 | appends `{name:"", purpose:"", inputs:[], outputs:"", steps:[]}`, which decodes to the empty function |
| FunctionsEditor.ChangeItem | components/sections/FunctionsEditor.tsx:64-69 | only that field of function `index` changes; the length and every other function are kept |
| FunctionsEditor.FunctionArrays | types.ts:60-66 | a well-formed function holds its inputs and steps as arrays that decode to its typed lists |
| FunctionsEditor.ChangeDecodes | components/sections/FunctionsEditor.tsx:64-69 | a well-formed value written into a field of a well-formed function gives the typed function with that field set |
| FunctionsEditor.AddItemTyped | components/sections/FunctionsEditor.tsx:60-62 | adding appends the empty function to the typed list |
| FunctionsEditor.ChangeItemTyped | components/sections/FunctionsEditor.tsx:64-69 | a well-formed edit changes that typed function as the edit says and leaves the others alone |
| FunctionsEditor.RemoveItemTyped | components/sections/FunctionsEditor.tsx:71-73 | removal removes the same typed position |
| FunctionsEditor.ListsOf | components/sections/FunctionsEditor.tsx:122 | the inputs and steps arrays of function `i` decode to its typed lists |
| FunctionsEditor.InputFieldDecodes | components/sections/FunctionsEditor.tsx:24-28 | writing a field of a well-formed input sets that typed field |
| FunctionsEditor.InputChangeTyped | components/sections/FunctionsEditor.tsx:24-28 | a sub-list edit of one input, installed through the function update, sets that field of that input of that function and nothing else |
| FunctionsEditor.InputRemoveTyped | components/sections/FunctionsEditor.tsx:31-33 | removing an input through the sub-list removes it from that function alone |
| FunctionsEditor.ApplyOutputs | components/sections/FunctionsEditor.tsx:141 | an outputs edit sets the typed outputs string alone |
| FunctionsEditor.ApplySteps | components/sections/FunctionsEditor.tsx:150 | a well-formed steps list sets the typed steps alone |
| FunctionsEditor.OutputsEditTyped | components/sections/FunctionsEditor.tsx:138-143 | an outputs edit replaces that function's outputs string and nothing else in the list |
| FunctionsEditor.StepsEditTyped | components/sections/FunctionsEditor.tsx:145-152 | a steps list handed back by the steps editor replaces that function's steps alone |
| FunctionsEditor.AddStepTyped | components/sections/FunctionsEditor.tsx:147-152 | adding a step appends an empty step to that function alone |
| FunctionsEditor.RemoveStepTyped | components/sections/FunctionsEditor.tsx:147-152 | removing a step removes it from that function alone |
| FunctionsEditor.AddInput | components/sections/FunctionsEditor.tsx:76-80 | the new list stands for the old one with `{name:"", type:""}` pushed onto function `funcIndex`'s inputs; the previous list shows the same push |
| FunctionsEditor.AppendedAppliesInput | components/sections/FunctionsEditor.tsx:123 | installing the inputs list with the empty input appended appends it to the typed function |
| FunctionsEditor.AddInputIsChange | components/sections/FunctionsEditor.tsx:76-80 | the value the input push leaves is the function update installing the longer list |
| FunctionsEditor.AddInputTyped | components/sections/FunctionsEditor.tsx:76-80 | on a well-formed list, the push appends the empty input to that function alone |
| SectionCollapse.Position | components/VibeStructureEditor.tsx:18-21 | every key stands somewhere in the section order |
| SectionCollapse.SectionOrderIsPermutation | components/VibeStructureEditor.tsx:18-21 | the order holds each of the eleven keys exactly once, Header first and Comments last |
| SectionCollapse.Uniform | components/VibeStructureEditor.tsx:23-30 | every section has a flag, and every flag equals the given value |
| SectionCollapse.Broadcast | components/VibeStructureEditor.tsx:36-49 | after the broadcast every flag equals the master value; when none would change, the previous state itself is kept |
| SectionCollapse.Toggled | components/VibeStructureEditor.tsx:53-58 | a toggle negates that section's flag and keeps the other ten |
| SectionCollapse.ToggleInvolutive | components/VibeStructureEditor.tsx:53-58 | toggling twice restores the state, and toggles of two sections commute |
| SectionCollapse.BroadcastOverridesToggles | components/VibeStructureEditor.tsx:32-51 | a broadcast wins over any earlier toggle, and a second broadcast of the same value changes nothing |
| SectionCollapse.CollapseState.constructor | components/VibeStructureEditor.tsx:23-30 | the loop over the section order gives every section the master value, or `false` without one |
| SectionCollapse.CollapseState.ApplyMaster | components/VibeStructureEditor.tsx:32-51 | with a master value the loop installs the broadcast, and reports an update exactly when some flag differed; without one nothing changes |
| SectionCollapse.CollapseState.Toggle | components/VibeStructureEditor.tsx:53-58 | the state becomes the toggled state |
| SectionCollapse.ToggleThenMaster | components/VibeStructureEditor.tsx:32-58 | a toggle followed by the master effect leaves every flag at the master value, and the effect reports an update |
| StructureEditor.SectionChange | components/VibeStructureEditor.tsx:60-62 | `{...data, [section]: value}` sets that one section and keeps every other key |
| StructureEditor.HeaderChange | components/VibeStructureEditor.tsx:64-66 | one header field is set; the other header properties and every other section are kept |
| StructureEditor.ListSectionChangeKeepsComplete | components/VibeStructureEditor.tsx:60-62 | putting an array in a list section keeps a complete document complete |
| StructureEditor.HeaderChangeKeepsComplete | components/VibeStructureEditor.tsx:64-66 | every header edit keeps a complete document complete |
| StructureEditor.HeaderEditDecodes | components/VibeStructureEditor.tsx:65 | writing one field of a well-formed header sets that typed field and nothing else |
| StructureEditor.SectionChangeTyped | components/VibeStructureEditor.tsx:60-62 | the changed section decodes as the new list, and every other section decodes as before |
| StructureEditor.DocumentSections | types.ts:68-80 | a well-formed document's header and ten sections each decode to their typed parts |
| StructureEditor.SectionUnchanged | components/VibeStructureEditor.tsx:61 | decoding a section reads only that section |
| StructureEditor.HeaderChangeTyped | components/VibeStructureEditor.tsx:64-66 | a header edit of a well-formed document edits the typed header and nothing else |
| StructureEditor.LowerChar | components/VibeStructureEditor.tsx:107 | `toLowerCase` maps each of A-Z to its own lower-case letter (the code point shifted by `'a' - 'A'`) and leaves every other character alone |
| StructureEditor.Lower | components/VibeStructureEditor.tsx:107 | `toLowerCase` lowers each character in place and keeps the length |
| StructureEditor.Placeholder | components/VibeStructureEditor.tsx:107 | "Enter " followed by the key minus its last character, lower-cased character by character |
| StructureEditor.FlowPlaceholderTruncated | components/VibeStructureEditor.tsx:107 | Flow reads "Enter flo" and Loops reads "Enter loop" |
| StructureEditor.EveryKeyRendered | components/VibeStructureEditor.tsx:68-143 | every key gets an editor, and the final `return null` is never reached. Exactly the seven string sections get a string-list editor, which is titled, collapsible and has its add action in the header |
| StructureEditor.StringBlockSelection | components/VibeStructureEditor.tsx:90-110 | the string-list editor is chosen for exactly Imports, Settings, Conditions, Loops, Errors, Flow and Comments |
| StructureEditor.StringBlocksTitled | components/VibeStructureEditor.tsx:101-108 | a string-list block is titled by its key, so it collapses and adds from the header |
| VibeApp.GateAcceptsExactly | App.tsx:10-12 | the gate accepts exactly the objects that hold Header, Imports and Variables; null, arrays and primitives are refused |
| VibeApp.TemplateKeys | constants.ts:65-82 | the empty template has exactly the eleven keys, and its header has exactly the four fields |
| VibeApp.HeaderOrEmpty | App.tsx:28 | `(parsed.Header or {})` spreads nothing for an absent or falsy header, and the header's own fields for an object |
| VibeApp.ArrayOrEmpty | App.tsx:30-39 | a present array is kept verbatim; anything else, absent included, becomes `[]` |
| VibeApp.ForcedLists | App.tsx:30-39 | the ten list sections, each forced to an array |
| VibeApp.NormalizeKeys | App.tsx:25-40 | the normal form holds exactly the parsed keys and the eleven document keys |
| VibeApp.NormalizeHeaderSlot | App.tsx:28 | the normal form's header is the merged header |
| VibeApp.UnknownKeySurvives | App.tsx:26-27 | a parsed property outside the schema survives unchanged |
| VibeApp.NormalizeListSection | App.tsx:30-39 | each list section is an array: the parsed array verbatim, malformed items included, or `[]` |
| VibeApp.NormalizeComplete | App.tsx:25-40 | the normal form always has the complete shape |
| VibeApp.NormalizeHeader | App.tsx:28 | a parsed header field wins and a missing one takes the default; a null, falsy or absent header gives exactly the default header |
| VibeApp.MergedCompleteHeader | App.tsx:28 | merging the defaults under a four-field header gives that header |
| VibeApp.NormalizeKeepsComplete | App.tsx:25-40 | every property of a complete document is its own normal form |
| VibeApp.NormalizeFixpoint | App.tsx:25-40 | a complete document is returned unchanged |
| VibeApp.NormalizeIdempotent | App.tsx:25-40 | normalising twice is normalising once |
| VibeApp.NormalizeEncoded | App.tsx:25-40 | a typed document survives normalisation and still decodes to itself |
| VibeApp.ConstantsPassGate | App.tsx:10-12 | both built-in documents pass the gate and are their own normal forms |
| VibeApp.ParseAndValidate | App.tsx:20-49 | success exactly when the text parsed and the gate passed, and then the complete normal form. A syntax failure gives the parser's message behind "Error parsing JSON: ", and a gate failure the fixed structure message |
| VibeApp.ReparseComplete | App.tsx:20-49 | a complete document read back unchanged parses to itself |
| VibeApp.App.constructor | App.tsx:15-18 | the sample document and its text, no error, nothing collapsed |
| VibeApp.App.ParseJson | App.tsx:20-49 | on success the normal form replaces the document and the error clears; on failure the document stays and the error is set; the raw text never changes |
| VibeApp.App.SetRawJsonInput | App.tsx:108 | typing changes the raw text alone |
| VibeApp.App.VibeDataChange | App.tsx:51-54 | the new document and its text; the error is untouched; a complete document keeps the class invariant |
| VibeApp.App.LoadEmpty | App.tsx:69-74 | the empty template and its text, no error; the flag is kept |
| VibeApp.App.LoadSample | App.tsx:76-81 | the sample document and its text, no error; the flag is kept |
| VibeApp.App.ToggleAllSections | App.tsx:83-85 | only the master flag changes, to its negation |
| VibeApp.EditThenParse | App.tsx:20-54 | after a structured edit, Parse gives back the edited document with no error, provided the printer and the parser agree on its text |

## Left out

- The JSON text grammar. `JSON.parse` and `JSON.stringify` are functions an `App` is given, not a parser and printer written here. `error.message` and `String(error)` are both folded into the parser's message string.
- Export (App.tsx:56-67). It is file download through the DOM, `Blob` and `URL`.
- The React runtime: `useState`, `useCallback`, the `useEffect` scheduling and the `useRef` box. The master effect is a method, `ApplyMaster`, that the owner calls when the master value changes. React's bail-out on an unchanged state is the `updated` flag.
- The presentation components: `JsonEditor`, `HeaderEditor`, `SectionCard`, `Button`, `IconButton`, `Select`, the unseen `Input` and `TextArea`, class strings and icons. HeaderEditor only binds the four fields to inputs. Its writes are `StructureEditor.HeaderChange`.
- The "No ... added yet" empty-state messages. They are text only and change nothing.
- The dead branch of App.tsx:111-121, which is unreachable because the document is always an object.
- The `itemBase` prop of the sub-list editors, which is never read.
- Numbers are integers. Floating-point JSON numbers, and the exponent notation `String` uses from 1e21 upwards, are not modelled.
- The order of object keys. Objects are maps, so key order, and with it the formatting of the printed text, is not modelled.
- The `in` operator sees own properties only. No prototype property of an object or an array is one of the three names the gate asks about.
- An absent `isCollapsible` is modelled as `false`.
- StructureEditor.Lower: lower-cases A-Z only. The section names are ASCII, so `toLowerCase` agrees with it on every input the editor gives it.
- StructureEditor.FlowPlaceholderTruncated: the literal placeholder is proved for Flow and Loops only. `StructureEditor.Placeholder` states the rule for every section.
- SharedArrays.PushNested: the heap model covers the three `push` handlers only. It requires the target array not to appear in any other item of the list (`OwnedAlone`). Aliasing between items of one list is not modelled. All other edits work on values.
- VibeApp.App.LoadSample: the sample is loaded as the pristine constant. In the source the initial state and Load Sample hand out the `INITIAL_VIBE_JSON_DATA` object itself (App.tsx:15-16, 76-81), and the three `push` handlers copy the list one level deep only (ClassesEditor.tsx:76-87, FunctionsEditor.tsx:76-80). Adding an attribute, a method or an input to a sample item that has not been replaced since therefore pushes into the constant's own nested array, and a later Load Sample prints and loads those extra entries. The model keeps the constants as values and does not capture this aliasing.
- VibeApp.App.VibeDataChange: requires a complete document. The source accepts any object, but its one caller, the structured editor, only passes `StructureEditor.SectionChange` of a list section with an array or `StructureEditor.HeaderChange` of the current complete document, which stay complete by `StructureEditor.ListSectionChangeKeepsComplete` and `StructureEditor.HeaderChangeKeepsComplete`.
- StringListEditor.ChangeItem: takes the list as a value, so the proof that the input list is left unmodified is by construction rather than by a frame.
- ClassesEditor.AddAttribute, ClassesEditor.AddMethod, FunctionsEditor.AddInput: these require `index` in range and the nested property to be an array, as the source's `push` needs. The source throws otherwise, and that behaviour is not modelled.
