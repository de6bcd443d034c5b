/**
 * The Vibe++ document schema: the record types, the three enumerations and
 * the eleven section keys, with their JSON encoding and a decoder that
 * recognises well-formed values.
 */
module Schema {
  import opened Wrappers
  import opened Json

  // ---------------------------------------------------------------------
  // Enumerations

  /** Suggested source languages; a header may name any other string too. */
  datatype OriginalLanguage = Python | Cpp | JavaScript | Rust | Java | CSharp | Go | Other

  function LanguageName(l: OriginalLanguage): string {
    match l
    case Python => "Python"
    case Cpp => "C++"
    case JavaScript => "JavaScript"
    case Rust => "Rust"
    case Java => "Java"
    case CSharp => "C#"
    case Go => "Go"
    case Other => "Other"
  }

  datatype ComplexityLevel = Beginner | Intermediate | Advanced

  function ComplexityName(c: ComplexityLevel): string {
    match c
    case Beginner => "Beginner"
    case Intermediate => "Intermediate"
    case Advanced => "Advanced"
  }

  function ComplexityFromName(s: string): Option<ComplexityLevel> {
    if s == "Beginner" then Some(Beginner)
    else if s == "Intermediate" then Some(Intermediate)
    else if s == "Advanced" then Some(Advanced)
    else None
  }

  /** The complexity level is one of exactly three strings, each naming one level. */
  lemma ComplexityNamesExact(s: string)
    ensures ComplexityFromName(s).Some? <==> s in {"Beginner", "Intermediate", "Advanced"}
    ensures ComplexityFromName(s).Some? ==> ComplexityName(ComplexityFromName(s).value) == s
    ensures forall c :: ComplexityFromName(ComplexityName(c)) == Some(c)
  {
    assert forall c :: ComplexityFromName(ComplexityName(c)) == Some(c) by {
      forall c ensures ComplexityFromName(ComplexityName(c)) == Some(c) { match c case _ => }
    }
  }

  datatype TranslationConfidence = High | Medium | Low

  function ConfidenceName(c: TranslationConfidence): string {
    match c
    case High => "High"
    case Medium => "Medium"
    case Low => "Low"
  }

  function ConfidenceFromName(s: string): Option<TranslationConfidence> {
    if s == "High" then Some(High)
    else if s == "Medium" then Some(Medium)
    else if s == "Low" then Some(Low)
    else None
  }

  /** The confidence is one of exactly three strings, each naming one level. */
  lemma ConfidenceNamesExact(s: string)
    ensures ConfidenceFromName(s).Some? <==> s in {"High", "Medium", "Low"}
    ensures ConfidenceFromName(s).Some? ==> ConfidenceName(ConfidenceFromName(s).value) == s
    ensures forall c :: ConfidenceFromName(ConfidenceName(c)) == Some(c)
  {
    assert forall c :: ConfidenceFromName(ConfidenceName(c)) == Some(c) by {
      forall c ensures ConfidenceFromName(ConfidenceName(c)) == Some(c) { match c case _ => }
    }
  }

  // ---------------------------------------------------------------------
  // Records

  /** `Original_Language` is free text: the OriginalLanguage names are only suggestions. */
  datatype HeaderData = HeaderData(
    originalLanguage: string,
    originalCodeSnippet: string,
    detectedComplexityLevel: ComplexityLevel,
    translationConfidence: TranslationConfidence)

  /** A variable's initial value is a string, a number or a boolean. */
  datatype InitialValue = TextValue(text: string) | NumberValue(number: int) | BoolValue(flag: bool)

  datatype VariableData = VariableData(name: string, typeName: string, initialValue: InitialValue)

  datatype AttributeData = AttributeData(name: string, typeName: string)

  datatype MethodData = MethodData(name: string, purpose: string)

  datatype ClassData = ClassData(
    name: string,
    purpose: string,
    attributes: seq<AttributeData>,
    methods: seq<MethodData>)

  datatype InputData = InputData(name: string, typeName: string)

  datatype FunctionData = FunctionData(
    name: string,
    purpose: string,
    inputs: seq<InputData>,
    outputs: string,
    steps: seq<string>)

  /** A document: the header and ten list sections. */
  datatype VibePlusPlusData = VibePlusPlusData(
    header: HeaderData,
    imports: seq<string>,
    settings: seq<string>,
    variables: seq<VariableData>,
    classes: seq<ClassData>,
    functions: seq<FunctionData>,
    conditions: seq<string>,
    loops: seq<string>,
    errors: seq<string>,
    flow: seq<string>,
    comments: seq<string>)

  // ---------------------------------------------------------------------
  // Section keys

  datatype SectionKey =
    Header | Imports | Settings | Variables | Classes | Functions
    | Conditions | Loops | Errors | Flow | Comments

  function KeyName(k: SectionKey): (r: string)
    ensures |r| > 0
  {
    match k
    case Header => "Header"
    case Imports => "Imports"
    case Settings => "Settings"
    case Variables => "Variables"
    case Classes => "Classes"
    case Functions => "Functions"
    case Conditions => "Conditions"
    case Loops => "Loops"
    case Errors => "Errors"
    case Flow => "Flow"
    case Comments => "Comments"
  }

  const AllSectionKeys: set<SectionKey> :=
    {Header, Imports, Settings, Variables, Classes, Functions, Conditions, Loops, Errors, Flow, Comments}

  /** The names of the ten list-valued sections. */
  const ListSectionNames: set<string> :=
    {"Imports", "Settings", "Variables", "Classes", "Functions", "Conditions", "Loops", "Errors", "Flow", "Comments"}

  /** The four property names of a header. */
  const HeaderFieldNames: set<string> :=
    {"Original_Language", "Original_Code_Snippet", "Detected_Complexity_Level", "Translation_Confidence"}

  function KeyFromName(s: string): Option<SectionKey> {
    if s == "Header" then Some(Header)
    else if s == "Imports" then Some(Imports)
    else if s == "Settings" then Some(Settings)
    else if s == "Variables" then Some(Variables)
    else if s == "Classes" then Some(Classes)
    else if s == "Functions" then Some(Functions)
    else if s == "Conditions" then Some(Conditions)
    else if s == "Loops" then Some(Loops)
    else if s == "Errors" then Some(Errors)
    else if s == "Flow" then Some(Flow)
    else if s == "Comments" then Some(Comments)
    else None
  }

  /** Every section key is named by exactly one string, so distinct keys name distinct sections. */
  lemma KeyNameInjective(k1: SectionKey, k2: SectionKey)
    ensures KeyFromName(KeyName(k1)) == Some(k1)
    ensures KeyName(k1) == KeyName(k2) ==> k1 == k2
  {
    match k1 case _ =>
    match k2 case _ =>
  }

  /** A document has exactly eleven sections: the header and the ten list sections. */
  lemma SectionKeysExact()
    ensures forall k: SectionKey :: k in AllSectionKeys
    ensures |AllSectionKeys| == 11
    ensures forall k: SectionKey :: k != Header <==> KeyName(k) in ListSectionNames
  {
    forall k: SectionKey ensures k in AllSectionKeys && (k != Header <==> KeyName(k) in ListSectionNames) {
      match k
      case Header => assert KeyName(k) !in ListSectionNames;
      case Imports =>
      case Settings =>
      case Variables =>
      case Classes =>
      case Functions =>
      case Conditions =>
      case Loops =>
      case Errors =>
      case Flow =>
      case Comments =>
    }
    SectionKeyCount();
  }

  lemma SectionKeyCount()
    ensures |AllSectionKeys| == 11
  {
    var s1 := {Header, Imports, Settings, Variables, Classes, Functions};
    var s2 := {Conditions, Loops, Errors, Flow, Comments};
    assert |s1| == 6;
    assert |s2| == 5;
    assert AllSectionKeys == s1 + s2;
  }

  // ---------------------------------------------------------------------
  // JSON encoding

  function EncodeList<T>(xs: seq<T>, enc: T -> JValue): (r: seq<JValue>)
    ensures |r| == |xs|
    ensures forall i :: 0 <= i < |xs| ==> r[i] == enc(xs[i])
  {
    seq(|xs|, i requires 0 <= i < |xs| => enc(xs[i]))
  }

  function EncodeString(s: string): JValue { JStr(s) }

  function EncodeStrings(ss: seq<string>): seq<JValue> { EncodeList(ss, EncodeString) }

  function EncodeHeader(h: HeaderData): JValue {
    JObj(map[
      "Original_Language" := JStr(h.originalLanguage),
      "Original_Code_Snippet" := JStr(h.originalCodeSnippet),
      "Detected_Complexity_Level" := JStr(ComplexityName(h.detectedComplexityLevel)),
      "Translation_Confidence" := JStr(ConfidenceName(h.translationConfidence))])
  }

  function EncodeInitialValue(v: InitialValue): JValue {
    match v
    case TextValue(s) => JStr(s)
    case NumberValue(n) => JNum(n)
    case BoolValue(b) => JBool(b)
  }

  function EncodeVariable(v: VariableData): JValue {
    JObj(map["name" := JStr(v.name), "type" := JStr(v.typeName), "initial_value" := EncodeInitialValue(v.initialValue)])
  }

  function EncodeAttribute(a: AttributeData): JValue {
    JObj(map["name" := JStr(a.name), "type" := JStr(a.typeName)])
  }

  function EncodeMethod(m: MethodData): JValue {
    JObj(map["name" := JStr(m.name), "purpose" := JStr(m.purpose)])
  }

  function EncodeClass(c: ClassData): JValue {
    JObj(map[
      "name" := JStr(c.name),
      "purpose" := JStr(c.purpose),
      "attributes" := JArr(EncodeList(c.attributes, EncodeAttribute)),
      "methods" := JArr(EncodeList(c.methods, EncodeMethod))])
  }

  function EncodeInput(i: InputData): JValue {
    JObj(map["name" := JStr(i.name), "type" := JStr(i.typeName)])
  }

  function EncodeFunction(f: FunctionData): JValue {
    JObj(map[
      "name" := JStr(f.name),
      "purpose" := JStr(f.purpose),
      "inputs" := JArr(EncodeList(f.inputs, EncodeInput)),
      "outputs" := JStr(f.outputs),
      "steps" := JArr(EncodeStrings(f.steps))])
  }

  function EncodeFields(d: VibePlusPlusData): map<string, JValue> {
    map[
      "Header" := EncodeHeader(d.header),
      "Imports" := JArr(EncodeStrings(d.imports)),
      "Settings" := JArr(EncodeStrings(d.settings)),
      "Variables" := JArr(EncodeList(d.variables, EncodeVariable)),
      "Classes" := JArr(EncodeList(d.classes, EncodeClass)),
      "Functions" := JArr(EncodeList(d.functions, EncodeFunction)),
      "Conditions" := JArr(EncodeStrings(d.conditions)),
      "Loops" := JArr(EncodeStrings(d.loops)),
      "Errors" := JArr(EncodeStrings(d.errors)),
      "Flow" := JArr(EncodeStrings(d.flow)),
      "Comments" := JArr(EncodeStrings(d.comments))]
  }

  /** The JSON object a typed document stands for. */
  function EncodeDocument(d: VibePlusPlusData): JValue {
    JObj(EncodeFields(d))
  }

  // ---------------------------------------------------------------------
  // Decoding: which JSON values are well-formed documents

  function DecodeList<T>(vs: seq<JValue>, dec: JValue -> Option<T>): (r: Option<seq<T>>)
    ensures r.Some? ==> |r.value| == |vs|
    ensures r.Some? ==> forall i :: 0 <= i < |vs| ==> dec(vs[i]) == Some(r.value[i])
  {
    if vs == [] then Some([])
    else
      var x :- dec(vs[0]);
      var xs :- DecodeList(vs[1..], dec);
      Some([x] + xs)
  }

  /** A list decodes exactly when every element does, to the element-wise results. */
  lemma {:induction false} DecodeListPointwise<T>(vs: seq<JValue>, dec: JValue -> Option<T>, xs: seq<T>)
    ensures DecodeList(vs, dec) == Some(xs) <==>
      |vs| == |xs| && forall i :: 0 <= i < |vs| ==> dec(vs[i]) == Some(xs[i])
  {
    if vs != [] {
      if xs != [] {
        DecodeListPointwise(vs[1..], dec, xs[1..]);
        if |vs| == |xs| && forall i :: 0 <= i < |vs| ==> dec(vs[i]) == Some(xs[i]) {
          assert forall i :: 0 <= i < |vs[1..]| ==> dec(vs[1..][i]) == Some(xs[1..][i]) by {
            forall i | 0 <= i < |vs[1..]| ensures dec(vs[1..][i]) == Some(xs[1..][i]) {
              assert vs[1..][i] == vs[i + 1] && xs[1..][i] == xs[i + 1];
            }
          }
          assert xs == [xs[0]] + xs[1..];
        }
        if DecodeList(vs, dec) == Some(xs) {
          assert DecodeList(vs[1..], dec) == Some(xs[1..]);
          forall i | 0 <= i < |vs| ensures dec(vs[i]) == Some(xs[i]) {
            if i > 0 { assert vs[1..][i - 1] == vs[i] && xs[1..][i - 1] == xs[i]; }
          }
        }
      }
    }
  }

  /** Decoding undoes encoding, element by element. */
  lemma DecodeEncodeList<T>(xs: seq<T>, enc: T -> JValue, dec: JValue -> Option<T>)
    requires forall x :: dec(enc(x)) == Some(x)
    ensures DecodeList(EncodeList(xs, enc), dec) == Some(xs)
  {
    DecodeListPointwise(EncodeList(xs, enc), dec, xs);
  }

  function DecodeString(v: JValue): Option<string> {
    if v.JStr? then Some(v.s) else None
  }

  function GetString(m: map<string, JValue>, k: string): Option<string> {
    if k in m then DecodeString(m[k]) else None
  }

  function GetArray(m: map<string, JValue>, k: string): Option<seq<JValue>> {
    if k in m && m[k].JArr? then Some(m[k].elems) else None
  }

  /** A header is an object whose four fields are strings, the last two naming enumeration members. */
  function DecodeHeader(v: JValue): Option<HeaderData> {
    if !v.JObj? then None
    else
      var lang :- GetString(v.fields, "Original_Language");
      var snippet :- GetString(v.fields, "Original_Code_Snippet");
      var complexity :- GetString(v.fields, "Detected_Complexity_Level");
      var confidence :- GetString(v.fields, "Translation_Confidence");
      var level :- ComplexityFromName(complexity);
      var conf :- ConfidenceFromName(confidence);
      Some(HeaderData(lang, snippet, level, conf))
  }

  function DecodeInitialValue(v: JValue): Option<InitialValue> {
    match v
    case JStr(s) => Some(TextValue(s))
    case JNum(n) => Some(NumberValue(n))
    case JBool(b) => Some(BoolValue(b))
    case _ => None
  }

  function DecodeVariable(v: JValue): Option<VariableData> {
    if !v.JObj? || "initial_value" !in v.fields then None
    else
      var name :- GetString(v.fields, "name");
      var typeName :- GetString(v.fields, "type");
      var init :- DecodeInitialValue(v.fields["initial_value"]);
      Some(VariableData(name, typeName, init))
  }

  function DecodeAttribute(v: JValue): Option<AttributeData> {
    if !v.JObj? then None
    else
      var name :- GetString(v.fields, "name");
      var typeName :- GetString(v.fields, "type");
      Some(AttributeData(name, typeName))
  }

  function DecodeMethod(v: JValue): Option<MethodData> {
    if !v.JObj? then None
    else
      var name :- GetString(v.fields, "name");
      var purpose :- GetString(v.fields, "purpose");
      Some(MethodData(name, purpose))
  }

  function DecodeClass(v: JValue): Option<ClassData> {
    if !v.JObj? then None
    else
      var name :- GetString(v.fields, "name");
      var purpose :- GetString(v.fields, "purpose");
      var attrs :- GetArray(v.fields, "attributes");
      var methods :- GetArray(v.fields, "methods");
      var attributes :- DecodeList(attrs, DecodeAttribute);
      var ms :- DecodeList(methods, DecodeMethod);
      Some(ClassData(name, purpose, attributes, ms))
  }

  function DecodeInput(v: JValue): Option<InputData> {
    if !v.JObj? then None
    else
      var name :- GetString(v.fields, "name");
      var typeName :- GetString(v.fields, "type");
      Some(InputData(name, typeName))
  }

  function DecodeFunction(v: JValue): Option<FunctionData> {
    if !v.JObj? then None
    else
      var name :- GetString(v.fields, "name");
      var purpose :- GetString(v.fields, "purpose");
      var ins :- GetArray(v.fields, "inputs");
      var outputs :- GetString(v.fields, "outputs");
      var steps :- GetArray(v.fields, "steps");
      var inputs :- DecodeList(ins, DecodeInput);
      var ss :- DecodeList(steps, DecodeString);
      Some(FunctionData(name, purpose, inputs, outputs, ss))
  }

  /** The section `k` of an object, decoded element by element by `dec`. */
  function DecodeSection<T>(m: map<string, JValue>, k: string, dec: JValue -> Option<T>): Option<seq<T>> {
    var vs :- GetArray(m, k);
    DecodeList(vs, dec)
  }

  /**
   * The typed document a JSON value stands for, if it is well formed.
   * Properties beyond the schema are tolerated, as TypeScript's structural
   * types tolerate them.
   */
  function DecodeDocument(v: JValue): Option<VibePlusPlusData> {
    if !v.JObj? || "Header" !in v.fields then None
    else
      var m := v.fields;
      var header :- DecodeHeader(m["Header"]);
      var imports :- DecodeSection(m, "Imports", DecodeString);
      var settings :- DecodeSection(m, "Settings", DecodeString);
      var variables :- DecodeSection(m, "Variables", DecodeVariable);
      var classes :- DecodeSection(m, "Classes", DecodeClass);
      var functions :- DecodeSection(m, "Functions", DecodeFunction);
      var conditions :- DecodeSection(m, "Conditions", DecodeString);
      var loops :- DecodeSection(m, "Loops", DecodeString);
      var errors :- DecodeSection(m, "Errors", DecodeString);
      var flow :- DecodeSection(m, "Flow", DecodeString);
      var comments :- DecodeSection(m, "Comments", DecodeString);
      Some(VibePlusPlusData(header, imports, settings, variables, classes, functions,
                            conditions, loops, errors, flow, comments))
  }

  // ---------------------------------------------------------------------
  // Round trips

  lemma DecodeEncodeHeader(h: HeaderData)
    ensures DecodeHeader(EncodeHeader(h)) == Some(h)
  {
    ComplexityNamesExact("");
    ConfidenceNamesExact("");
  }

  /** Any string at all is accepted as the header's language. */
  lemma LanguageIsFreeText(h: HeaderData, language: string)
    ensures DecodeHeader(EncodeHeader(h.(originalLanguage := language))) == Some(h.(originalLanguage := language))
  {
    DecodeEncodeHeader(h.(originalLanguage := language));
  }

  lemma DecodeEncodeStrings(ss: seq<string>)
    ensures DecodeList(EncodeStrings(ss), DecodeString) == Some(ss)
  {
    DecodeEncodeList(ss, EncodeString, DecodeString);
  }

  lemma DecodeEncodeClass(c: ClassData)
    ensures DecodeClass(EncodeClass(c)) == Some(c)
  {
    DecodeEncodeList(c.attributes, EncodeAttribute, DecodeAttribute);
    DecodeEncodeList(c.methods, EncodeMethod, DecodeMethod);
  }

  lemma DecodeEncodeFunction(f: FunctionData)
    ensures DecodeFunction(EncodeFunction(f)) == Some(f)
  {
    DecodeEncodeList(f.inputs, EncodeInput, DecodeInput);
    DecodeEncodeStrings(f.steps);
  }

  lemma DecodeEncodeVariable(v: VariableData)
    ensures DecodeVariable(EncodeVariable(v)) == Some(v)
  {
  }

  lemma DecodeEncodeVariables(vs: seq<VariableData>)
    ensures DecodeList(EncodeList(vs, EncodeVariable), DecodeVariable) == Some(vs)
  {
    forall v ensures DecodeVariable(EncodeVariable(v)) == Some(v) { DecodeEncodeVariable(v); }
    DecodeEncodeList(vs, EncodeVariable, DecodeVariable);
  }

  lemma DecodeEncodeClasses(cs: seq<ClassData>)
    ensures DecodeList(EncodeList(cs, EncodeClass), DecodeClass) == Some(cs)
  {
    forall c ensures DecodeClass(EncodeClass(c)) == Some(c) { DecodeEncodeClass(c); }
    DecodeEncodeList(cs, EncodeClass, DecodeClass);
  }

  lemma DecodeEncodeFunctions(fs: seq<FunctionData>)
    ensures DecodeList(EncodeList(fs, EncodeFunction), DecodeFunction) == Some(fs)
  {
    forall f ensures DecodeFunction(EncodeFunction(f)) == Some(f) { DecodeEncodeFunction(f); }
    DecodeEncodeList(fs, EncodeFunction, DecodeFunction);
  }

  /** Every typed document is recovered from its JSON encoding. */
  lemma DecodeEncodeDocument(d: VibePlusPlusData)
    ensures DecodeDocument(EncodeDocument(d)) == Some(d)
  {
    DecodeEncodeHeaderSection(d);
    DecodeEncodeSetupSections(d);
    DecodeEncodeVariablesSection(d);
    DecodeEncodeClassesSection(d);
    DecodeEncodeFunctionsSection(d);
    DecodeEncodeControlSections(d);
    DecodeEncodeNoteSections(d);
    DecodeFromSections(EncodeFields(d), d);
  }

  lemma DecodeEncodeHeaderSection(d: VibePlusPlusData)
    ensures "Header" in EncodeFields(d) && DecodeHeader(EncodeFields(d)["Header"]) == Some(d.header)
  {
    DecodeEncodeHeader(d.header);
  }

  lemma DecodeEncodeSetupSections(d: VibePlusPlusData)
    ensures DecodeSection(EncodeFields(d), "Imports", DecodeString) == Some(d.imports)
    ensures DecodeSection(EncodeFields(d), "Settings", DecodeString) == Some(d.settings)
  {
    DecodeEncodeStrings(d.imports);
    DecodeEncodeStrings(d.settings);
  }

  lemma DecodeEncodeVariablesSection(d: VibePlusPlusData)
    ensures DecodeSection(EncodeFields(d), "Variables", DecodeVariable) == Some(d.variables)
  {
    DecodeEncodeVariables(d.variables);
  }

  lemma DecodeEncodeClassesSection(d: VibePlusPlusData)
    ensures DecodeSection(EncodeFields(d), "Classes", DecodeClass) == Some(d.classes)
  {
    DecodeEncodeClasses(d.classes);
  }

  lemma DecodeEncodeFunctionsSection(d: VibePlusPlusData)
    ensures DecodeSection(EncodeFields(d), "Functions", DecodeFunction) == Some(d.functions)
  {
    DecodeEncodeFunctions(d.functions);
  }

  lemma DecodeEncodeControlSections(d: VibePlusPlusData)
    ensures DecodeSection(EncodeFields(d), "Conditions", DecodeString) == Some(d.conditions)
    ensures DecodeSection(EncodeFields(d), "Loops", DecodeString) == Some(d.loops)
    ensures DecodeSection(EncodeFields(d), "Errors", DecodeString) == Some(d.errors)
  {
    DecodeEncodeStrings(d.conditions);
    DecodeEncodeStrings(d.loops);
    DecodeEncodeStrings(d.errors);
  }

  lemma DecodeEncodeNoteSections(d: VibePlusPlusData)
    ensures DecodeSection(EncodeFields(d), "Flow", DecodeString) == Some(d.flow)
    ensures DecodeSection(EncodeFields(d), "Comments", DecodeString) == Some(d.comments)
  {
    DecodeEncodeStrings(d.flow);
    DecodeEncodeStrings(d.comments);
  }

  /** Decoding a document is decoding its header and each of its ten sections. */
  lemma DecodeFromSections(m: map<string, JValue>, d: VibePlusPlusData)
    requires "Header" in m && DecodeHeader(m["Header"]) == Some(d.header)
    requires DecodeSection(m, "Imports", DecodeString) == Some(d.imports)
    requires DecodeSection(m, "Settings", DecodeString) == Some(d.settings)
    requires DecodeSection(m, "Variables", DecodeVariable) == Some(d.variables)
    requires DecodeSection(m, "Classes", DecodeClass) == Some(d.classes)
    requires DecodeSection(m, "Functions", DecodeFunction) == Some(d.functions)
    requires DecodeSection(m, "Conditions", DecodeString) == Some(d.conditions)
    requires DecodeSection(m, "Loops", DecodeString) == Some(d.loops)
    requires DecodeSection(m, "Errors", DecodeString) == Some(d.errors)
    requires DecodeSection(m, "Flow", DecodeString) == Some(d.flow)
    requires DecodeSection(m, "Comments", DecodeString) == Some(d.comments)
    ensures DecodeDocument(JObj(m)) == Some(d)
  {
  }

  /**
   * The shape every document the editor holds has: a header object with
   * (at least) the four header properties and an array in each of the ten
   * list sections. Items inside the arrays are not constrained.
   */
  predicate IsCompleteDocument(m: map<string, JValue>) {
    && "Header" in m && m["Header"].JObj? && HeaderFieldNames <= m["Header"].fields.Keys
    && forall k :: k in ListSectionNames ==> k in m && m[k].JArr?
  }

  /** The encoding of a typed document has exactly the eleven keys and the complete shape. */
  lemma EncodedDocumentShape(d: VibePlusPlusData)
    ensures EncodeFields(d).Keys == ListSectionNames + {"Header"}
    ensures EncodeFields(d)["Header"].JObj? && EncodeFields(d)["Header"].fields.Keys == HeaderFieldNames
    ensures IsCompleteDocument(EncodeFields(d))
  {
    EncodedKeys(d);
  }

  lemma EncodedKeys(d: VibePlusPlusData)
    ensures EncodeFields(d).Keys == ListSectionNames + {"Header"}
  {
  }
}
