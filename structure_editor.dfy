/**
 * The structured editor: how one section or one header field is replaced
 * in the document, and which editor each section key is rendered with.
 */
module StructureEditor {
  import opened Wrappers
  import opened Json
  import opened Schema
  import StringListEditor

  // ---------------------------------------------------------------------
  // Replacing a section or a header field

  /** handleSectionChange: `{...data, [section]: value}` */
  function SectionChange(data: map<string, JValue>, section: SectionKey, value: JValue): (r: map<string, JValue>)
    ensures r.Keys == data.Keys + {KeyName(section)}
    ensures r[KeyName(section)] == value
    ensures forall k :: k in data && k != KeyName(section) ==> r[k] == data[k]
  {
    data[KeyName(section) := value]
  }

  datatype HeaderEdit =
    | SetLanguage(language: string)
    | SetSnippet(snippet: string)
    | SetComplexity(level: ComplexityLevel)
    | SetConfidence(confidence: TranslationConfidence)

  function HeaderKey(e: HeaderEdit): string {
    match e
    case SetLanguage(_) => "Original_Language"
    case SetSnippet(_) => "Original_Code_Snippet"
    case SetComplexity(_) => "Detected_Complexity_Level"
    case SetConfidence(_) => "Translation_Confidence"
  }

  /** The JSON value of a header field: the text, or the enumeration member's string value. */
  function HeaderValue(e: HeaderEdit): JValue {
    match e
    case SetLanguage(s) => JStr(s)
    case SetSnippet(s) => JStr(s)
    case SetComplexity(c) => JStr(ComplexityName(c))
    case SetConfidence(c) => JStr(ConfidenceName(c))
  }

  function ApplyHeaderEdit(h: HeaderData, e: HeaderEdit): HeaderData {
    match e
    case SetLanguage(s) => h.(originalLanguage := s)
    case SetSnippet(s) => h.(originalCodeSnippet := s)
    case SetComplexity(c) => h.(detectedComplexityLevel := c)
    case SetConfidence(c) => h.(translationConfidence := c)
  }

  /** handleHeaderChange: `handleSectionChange("Header", {...data.Header, [key]: value})` */
  function HeaderChange(data: map<string, JValue>, e: HeaderEdit): (r: map<string, JValue>)
    ensures r.Keys == data.Keys + {"Header"}
    ensures forall k :: k in data && k != "Header" ==> r[k] == data[k]
    ensures r["Header"].JObj?
    ensures r["Header"].fields.Keys == SpreadOpt(Lookup(data, "Header")).Keys + {HeaderKey(e)}
    ensures r["Header"].fields[HeaderKey(e)] == HeaderValue(e)
    ensures forall k :: k in SpreadOpt(Lookup(data, "Header")) && k != HeaderKey(e) ==>
      r["Header"].fields[k] == SpreadOpt(Lookup(data, "Header"))[k]
  {
    SectionChange(data, Header, JObj(SpreadOpt(Lookup(data, "Header"))[HeaderKey(e) := HeaderValue(e)]))
  }

  /** A complete document stays complete under a section change that puts an array in a list section. */
  lemma ListSectionChangeKeepsComplete(data: map<string, JValue>, section: SectionKey, vs: seq<JValue>)
    requires IsCompleteDocument(data) && section != Header
    ensures IsCompleteDocument(SectionChange(data, section, JArr(vs)))
  {
    SectionKeysExact();
    KeyNameInjective(section, Header);
  }

  /** A complete document stays complete under every header edit. */
  lemma HeaderChangeKeepsComplete(data: map<string, JValue>, e: HeaderEdit)
    requires IsCompleteDocument(data)
    ensures IsCompleteDocument(HeaderChange(data, e))
  {
    SectionKeysExact();
  }

  /** Writing a well-formed value into a field of a well-formed header gives the header with that field set. */
  lemma HeaderEditDecodes(v: JValue, h: HeaderData, e: HeaderEdit)
    requires DecodeHeader(v) == Some(h)
    ensures DecodeHeader(JObj(v.fields[HeaderKey(e) := HeaderValue(e)])) == Some(ApplyHeaderEdit(h, e))
  {
    var m := v.fields[HeaderKey(e) := HeaderValue(e)];
    ComplexityNamesExact(ConfidenceName(h.translationConfidence));
    ConfidenceNamesExact(ComplexityName(h.detectedComplexityLevel));
    match e
    case SetLanguage(_) =>
      assert m["Original_Code_Snippet"] == v.fields["Original_Code_Snippet"];
      assert m["Detected_Complexity_Level"] == v.fields["Detected_Complexity_Level"];
      assert m["Translation_Confidence"] == v.fields["Translation_Confidence"];
    case SetSnippet(_) =>
      assert m["Original_Language"] == v.fields["Original_Language"];
      assert m["Detected_Complexity_Level"] == v.fields["Detected_Complexity_Level"];
      assert m["Translation_Confidence"] == v.fields["Translation_Confidence"];
    case SetComplexity(c) =>
      ComplexityNamesExact(ComplexityName(c));
      assert m["Original_Language"] == v.fields["Original_Language"];
      assert m["Original_Code_Snippet"] == v.fields["Original_Code_Snippet"];
      assert m["Translation_Confidence"] == v.fields["Translation_Confidence"];
    case SetConfidence(c) =>
      ConfidenceNamesExact(ConfidenceName(c));
      assert m["Original_Language"] == v.fields["Original_Language"];
      assert m["Original_Code_Snippet"] == v.fields["Original_Code_Snippet"];
      assert m["Detected_Complexity_Level"] == v.fields["Detected_Complexity_Level"];
  }

  /**
   * A section change as the typed document sees it: the changed section
   * decodes as the new list, and every other section decodes as before.
   */
  lemma SectionChangeTyped<T>(data: map<string, JValue>, section: SectionKey, vs: seq<JValue>,
                              dec: JValue -> Option<T>, other: string)
    ensures DecodeSection(SectionChange(data, section, JArr(vs)), KeyName(section), dec) == DecodeList(vs, dec)
    ensures other != KeyName(section) ==>
      DecodeSection(SectionChange(data, section, JArr(vs)), other, dec) == DecodeSection(data, other, dec)
  {
  }

  /** The header and the ten sections of a well-formed document, one by one. */
  lemma DocumentSections(m: map<string, JValue>, d: VibePlusPlusData)
    requires DecodeDocument(JObj(m)) == Some(d)
    ensures "Header" in m && DecodeHeader(m["Header"]) == Some(d.header)
    ensures DecodeSection(m, "Imports", DecodeString) == Some(d.imports)
    ensures DecodeSection(m, "Settings", DecodeString) == Some(d.settings)
    ensures DecodeSection(m, "Variables", DecodeVariable) == Some(d.variables)
    ensures DecodeSection(m, "Classes", DecodeClass) == Some(d.classes)
    ensures DecodeSection(m, "Functions", DecodeFunction) == Some(d.functions)
    ensures DecodeSection(m, "Conditions", DecodeString) == Some(d.conditions)
    ensures DecodeSection(m, "Loops", DecodeString) == Some(d.loops)
    ensures DecodeSection(m, "Errors", DecodeString) == Some(d.errors)
    ensures DecodeSection(m, "Flow", DecodeString) == Some(d.flow)
    ensures DecodeSection(m, "Comments", DecodeString) == Some(d.comments)
  {
  }

  /** Decoding a section reads only that section. */
  lemma SectionUnchanged<T>(m: map<string, JValue>, m2: map<string, JValue>, k: string, dec: JValue -> Option<T>)
    requires Lookup(m, k) == Lookup(m2, k)
    ensures DecodeSection(m2, k, dec) == DecodeSection(m, k, dec)
  {
  }

  /** A header edit of a well-formed document edits the typed header and nothing else. */
  lemma HeaderChangeTyped(data: map<string, JValue>, d: VibePlusPlusData, e: HeaderEdit)
    requires DecodeDocument(JObj(data)) == Some(d)
    ensures DecodeDocument(JObj(HeaderChange(data, e))) == Some(d.(header := ApplyHeaderEdit(d.header, e)))
  {
    DocumentSections(data, d);
    var r := HeaderChange(data, e);
    HeaderEditDecodes(data["Header"], d.header, e);
    assert r["Header"] == JObj(data["Header"].fields[HeaderKey(e) := HeaderValue(e)]);
    SectionUnchanged(data, r, "Imports", DecodeString);
    SectionUnchanged(data, r, "Settings", DecodeString);
    SectionUnchanged(data, r, "Variables", DecodeVariable);
    SectionUnchanged(data, r, "Classes", DecodeClass);
    SectionUnchanged(data, r, "Functions", DecodeFunction);
    SectionUnchanged(data, r, "Conditions", DecodeString);
    SectionUnchanged(data, r, "Loops", DecodeString);
    SectionUnchanged(data, r, "Errors", DecodeString);
    SectionUnchanged(data, r, "Flow", DecodeString);
    SectionUnchanged(data, r, "Comments", DecodeString);
    DecodeFromSections(r, d.(header := ApplyHeaderEdit(d.header, e)));
  }

  // ---------------------------------------------------------------------
  // Dispatch

  /** The seven sections rendered by a string-list editor. */
  const StringSectionNames: seq<string> := ["Imports", "Settings", "Conditions", "Loops", "Errors", "Flow", "Comments"]

  /** ASCII `toLowerCase` (every section name is ASCII). */
  function LowerChar(c: char): (r: char)
    ensures 'A' <= c <= 'Z' ==> 'a' <= r <= 'z' && r as int == c as int - 'A' as int + 'a' as int
    ensures !('A' <= c <= 'Z') ==> r == c
  {
    if 'A' <= c <= 'Z' then (c as int - 'A' as int + 'a' as int) as char else c
  }

  function Lower(s: string): (r: string)
    ensures |r| == |s| && forall i :: 0 <= i < |s| ==> r[i] == LowerChar(s[i])
  {
    if s == [] then [] else [LowerChar(s[0])] + Lower(s[1..])
  }

  /** The placeholder of a string section: "Enter " and the key, its last character dropped, lower-cased. */
  function Placeholder(k: SectionKey): (r: string)
    ensures |r| == 6 + |KeyName(k)| - 1
    ensures r[..6] == "Enter "
    ensures forall i :: 6 <= i < |r| ==> r[i] == LowerChar(KeyName(k)[i - 6])
  {
    "Enter " + Lower(StringListEditor.DropLast(KeyName(k)))
  }

  /**
   * The placeholder is derived from the title, not written per section: the
   * Flow section, whose name is not a plural, reads "Enter flo".
   */
  lemma FlowPlaceholderTruncated()
    ensures Placeholder(Flow) == "Enter flo"
    ensures Placeholder(Loops) == "Enter loop"
  {
    assert StringListEditor.DropLast("Flow") == "Flo";
    assert Lower("Flo") == "flo";
    assert StringListEditor.DropLast("Loops") == "Loop";
    assert Lower("Loop") == "loop";
  }

  datatype Block =
    | HeaderBlock
    | StringListBlock(title: string, placeholder: string)
    | VariablesBlock
    | ClassesBlock
    | FunctionsBlock

  /** renderBlock's choice of editor; `None` is its final `return null`. */
  function RenderBlock(k: SectionKey): Option<Block> {
    if k == Header then Some(HeaderBlock)
    else if KeyName(k) in StringSectionNames then Some(StringListBlock(KeyName(k), Placeholder(k)))
    else if k == Variables then Some(VariablesBlock)
    else if k == Classes then Some(ClassesBlock)
    else if k == Functions then Some(FunctionsBlock)
    else None
  }

  /**
   * Every section key gets an editor (the null branch is never taken), and
   * every string-list block is titled, so it is collapsible and has its add
   * control in the card header.
   */
  lemma EveryKeyRendered(k: SectionKey)
    ensures RenderBlock(k).Some?
    ensures RenderBlock(k).value.StringListBlock? <==> k in {Imports, Settings, Conditions, Loops, Errors, Flow, Comments}
    ensures RenderBlock(k).value.StringListBlock? ==>
      StringListEditor.Collapsible(true, RenderBlock(k).value.title) &&
      StringListEditor.AddControls(RenderBlock(k).value.title, 0) == [StringListEditor.HeaderAddButton]
  {
    StringBlockSelection(k);
    StringBlocksTitled(k);
  }

  lemma StringBlocksTitled(k: SectionKey)
    ensures RenderBlock(k).Some? && RenderBlock(k).value.StringListBlock? ==>
      StringListEditor.Collapsible(true, RenderBlock(k).value.title) &&
      StringListEditor.AddControls(RenderBlock(k).value.title, 0) == [StringListEditor.HeaderAddButton]
  {
  }

  lemma StringBlockSelection(k: SectionKey)
    ensures RenderBlock(k).Some?
    ensures RenderBlock(k).value.StringListBlock? <==> k in {Imports, Settings, Conditions, Loops, Errors, Flow, Comments}
  {
    match k
    case Header =>
    case Imports => assert KeyName(k) == StringSectionNames[0];
    case Settings => assert KeyName(k) == StringSectionNames[1];
    case Variables => assert KeyName(k) !in StringSectionNames;
    case Classes => assert KeyName(k) !in StringSectionNames;
    case Functions => assert KeyName(k) !in StringSectionNames;
    case Conditions => assert KeyName(k) == StringSectionNames[2];
    case Loops => assert KeyName(k) == StringSectionNames[3];
    case Errors => assert KeyName(k) == StringSectionNames[4];
    case Flow => assert KeyName(k) == StringSectionNames[5];
    case Comments => assert KeyName(k) == StringSectionNames[6];
  }

}
