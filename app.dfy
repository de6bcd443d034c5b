/**
 * The application shell: the structure gate applied to parsed JSON, the
 * normaliser that completes a parsed document, and the four state cells
 * (raw text, document, parse error, master collapse flag) with the
 * actions that update them.
 */
module VibeApp {
  import opened Wrappers
  import opened Json
  import opened Schema
  import opened Constants

  // ---------------------------------------------------------------------
  // The structure gate

  /** `obj && typeof obj === 'object' && 'Header' in obj && 'Imports' in obj && 'Variables' in obj` */
  predicate IsValidVibeJson(v: JValue) {
    Truthy(v) && TypeOf(v) == "object" && In("Header", v) && In("Imports", v) && In("Variables", v)
  }

  /**
   * The gate accepts exactly the objects that hold the three keys: null is
   * falsy, an array never has a named key, and nothing else is inspected.
   */
  lemma GateAcceptsExactly(v: JValue)
    ensures IsValidVibeJson(v) <==>
      v.JObj? && "Header" in v.fields && "Imports" in v.fields && "Variables" in v.fields
  {
    if v.JArr? {
      ArrayHasNoNamedKey("Header", v.elems);
    }
  }

  // ---------------------------------------------------------------------
  // The normaliser

  /** The properties of the empty template's header. */
  const DefaultHeader: map<string, JValue> := EncodeHeader(EmptyHeader).fields

  /** The keys of the empty template and of its header. */
  lemma TemplateKeys()
    ensures EmptyJson.Keys == ListSectionNames + {"Header"}
    ensures DefaultHeader.Keys == HeaderFieldNames
  {
    EncodedDocumentShape(EmptyVibeData);
  }

  /** `...(parsed.Header || {})`: the header's own properties, or none when it is falsy or absent. */
  function HeaderOrEmpty(h: Option<JValue>): (r: map<string, JValue>)
    ensures h.None? || !Truthy(h.value) ==> r == map[]
    ensures h.Some? && h.value.JObj? ==> r == h.value.fields
  {
    if h.Some? && Truthy(h.value) then Spread(h.value) else map[]
  }

  /** `{ ...EMPTY_VIBE_JSON_DATA.Header, ...(parsed.Header || {}) }` */
  function MergedHeader(p: map<string, JValue>): JValue {
    JObj(DefaultHeader + HeaderOrEmpty(Lookup(p, "Header")))
  }

  /** `Array.isArray(x) ? x : []` on a property that may be absent. */
  function ArrayOrEmpty(v: Option<JValue>): (r: JValue)
    ensures r.JArr?
    ensures v.Some? && v.value.JArr? ==> r == v.value
    ensures !(v.Some? && v.value.JArr?) ==> r == JArr([])
  {
    if v.Some? && v.value.JArr? then v.value else JArr([])
  }

  /** The ten list sections, each forced to an array. */
  function ForcedLists(p: map<string, JValue>): (r: map<string, JValue>)
    ensures r.Keys == ListSectionNames
    ensures forall k :: k in r ==> r[k] == ArrayOrEmpty(Lookup(p, k))
  {
    map k | k in ListSectionNames :: ArrayOrEmpty(Lookup(p, k))
  }

  /**
   * The complete document built from a parsed object: the empty template,
   * the parsed properties over it, then the merged header and the ten list
   * sections forced to arrays.
   */
  function Normalize(p: map<string, JValue>): map<string, JValue> {
    (EmptyJson + p)["Header" := MergedHeader(p)] + ForcedLists(p)
  }

  /** The normal form holds the parsed keys and the eleven document keys. */
  lemma NormalizeKeys(p: map<string, JValue>)
    ensures Normalize(p).Keys == p.Keys + ListSectionNames + {"Header"}
  {
    TemplateKeys();
  }

  /** The normal form's header is the merged header. */
  lemma NormalizeHeaderSlot(p: map<string, JValue>)
    ensures "Header" in Normalize(p) && Normalize(p)["Header"] == MergedHeader(p)
  {
    assert "Header" !in ForcedLists(p);
  }

  /** A parsed property outside the schema survives into the normal form unchanged. */
  lemma UnknownKeySurvives(p: map<string, JValue>, k: string)
    requires k in p && k !in ListSectionNames && k != "Header"
    ensures k in Normalize(p) && Normalize(p)[k] == p[k]
  {
  }

  /** A list section that held an array keeps it verbatim, whatever its items; anything else becomes `[]`. */
  lemma NormalizeListSection(p: map<string, JValue>, k: string)
    requires k in ListSectionNames
    ensures k in Normalize(p) && Normalize(p)[k].JArr?
    ensures k in p && p[k].JArr? ==> Normalize(p)[k] == p[k]
    ensures !(k in p && p[k].JArr?) ==> Normalize(p)[k] == JArr([])
  {
  }

  /** The normal form always has the complete shape. */
  lemma NormalizeComplete(p: map<string, JValue>)
    ensures IsCompleteDocument(Normalize(p))
  {
    NormalizeHeaderSlot(p);
    TemplateKeys();
    forall k | k in ListSectionNames ensures k in Normalize(p) && Normalize(p)[k].JArr? {
      NormalizeListSection(p, k);
    }
  }

  /**
   * The header is merged field by field (the normal form's header is
   * MergedHeader, by NormalizeHeaderSlot): a property of the parsed header
   * wins, a missing one takes the default, and a null, false or absent
   * header gives exactly the default header.
   */
  lemma NormalizeHeader(p: map<string, JValue>, f: string)
    ensures f in HeaderOrEmpty(Lookup(p, "Header")) ==>
      MergedHeader(p).fields[f] == HeaderOrEmpty(Lookup(p, "Header"))[f]
    ensures f in DefaultHeader && f !in HeaderOrEmpty(Lookup(p, "Header")) ==>
      MergedHeader(p).fields[f] == DefaultHeader[f]
    ensures "Header" !in p || !Truthy(p["Header"]) ==> MergedHeader(p) == EncodeHeader(EmptyHeader)
    ensures "Header" in p && p["Header"].JObj? ==>
      MergedHeader(p).fields.Keys == HeaderFieldNames + p["Header"].fields.Keys
  {
    TemplateKeys();
    assert DefaultHeader + map[] == DefaultHeader;
  }

  /** Merging the default header under a header that has all four fields gives that header. */
  lemma MergedCompleteHeader(m: map<string, JValue>)
    requires IsCompleteDocument(m)
    ensures MergedHeader(m) == m["Header"]
  {
    TemplateKeys();
    assert DefaultHeader + m["Header"].fields == m["Header"].fields;
  }

  /** Each property of a complete document is its own normal form. */
  lemma NormalizeKeepsComplete(m: map<string, JValue>, k: string)
    requires IsCompleteDocument(m) && k in m
    ensures k in Normalize(m) && Normalize(m)[k] == m[k]
  {
    if k in ListSectionNames {
      NormalizeListSection(m, k);
    } else if k == "Header" {
      NormalizeHeaderSlot(m);
      MergedCompleteHeader(m);
    } else {
      UnknownKeySurvives(m, k);
    }
  }

  /** A document already in complete shape is its own normal form. */
  lemma NormalizeFixpoint(m: map<string, JValue>)
    requires IsCompleteDocument(m)
    ensures Normalize(m) == m
  {
    NormalizeKeys(m);
    forall k | k in m ensures Normalize(m)[k] == m[k] {
      NormalizeKeepsComplete(m, k);
    }
  }

  /** Normalising twice is normalising once. */
  lemma NormalizeIdempotent(p: map<string, JValue>)
    ensures Normalize(Normalize(p)) == Normalize(p)
  {
    NormalizeComplete(p);
    NormalizeFixpoint(Normalize(p));
  }

  /** A typed document survives normalisation: its encoding is already complete. */
  lemma NormalizeEncoded(d: VibePlusPlusData)
    ensures Normalize(EncodeFields(d)) == EncodeFields(d)
    ensures DecodeDocument(JObj(Normalize(EncodeFields(d)))) == Some(d)
  {
    EncodedDocumentShape(d);
    NormalizeFixpoint(EncodeFields(d));
    DecodeEncodeDocument(d);
  }

  /** Both constants pass the gate and are left as they are by the normaliser. */
  lemma ConstantsPassGate()
    ensures IsValidVibeJson(JObj(EmptyJson)) && IsValidVibeJson(JObj(SampleJson))
    ensures Normalize(EmptyJson) == EmptyJson && Normalize(SampleJson) == SampleJson
  {
    ConstantsWellFormed();
    GateAcceptsExactly(JObj(EmptyJson));
    GateAcceptsExactly(JObj(SampleJson));
    NormalizeFixpoint(EmptyJson);
    NormalizeFixpoint(SampleJson);
  }

  // ---------------------------------------------------------------------
  // Parsing

  const InvalidStructureMessage: string := "Invalid Vibe++ JSON structure. Please check the format."

  function ParseErrorMessage(message: string): string {
    "Error parsing JSON: " + message
  }

  /**
   * The outcome of the body of handleParseJson for what `JSON.parse`
   * returned: the complete document, or the error message to show.
   */
  function ParseAndValidate(parsed: Result<JValue, string>): (r: Result<map<string, JValue>, string>)
    ensures r.Success? <==> parsed.Success? && IsValidVibeJson(parsed.value)
    ensures r.Success? ==> parsed.value.JObj? && IsCompleteDocument(r.value) && r.value == Normalize(parsed.value.fields)
    ensures parsed.Failure? ==> r == Failure(ParseErrorMessage(parsed.error))
    ensures parsed.Success? && !IsValidVibeJson(parsed.value) ==> r == Failure(InvalidStructureMessage)
  {
    match parsed
    case Failure(message) => Failure(ParseErrorMessage(message))
    case Success(v) =>
      GateAcceptsExactly(v);
      if IsValidVibeJson(v) then
        NormalizeComplete(v.fields);
        Success(Normalize(v.fields))
      else
        Failure(InvalidStructureMessage)
  }

  /** A complete document, once printed and read back unchanged, parses to itself. */
  lemma ReparseComplete(m: map<string, JValue>)
    requires IsCompleteDocument(m)
    ensures ParseAndValidate(Success(JObj(m))) == Success(m)
  {
    GateAcceptsExactly(JObj(m));
    NormalizeFixpoint(m);
  }

  // ---------------------------------------------------------------------
  // The application state

  /**
   * The four state cells of the application. `JSON.parse` and
   * `JSON.stringify(_, null, 2)` are the functions it is built with.
   */
  class App {
    const parse: string -> Result<JValue, string>
    const stringify: JValue -> string

    var rawJsonInput: string
    var vibeJsonData: map<string, JValue>
    var parseError: Option<string>
    var allSectionsCollapsed: bool

    /** The document the structured editor is given always has the complete shape. */
    ghost predicate Valid()
      reads this
    {
      IsCompleteDocument(vibeJsonData)
    }

    /** The initial cells: the sample document and its text, no error, nothing collapsed. */
    constructor (parse: string -> Result<JValue, string>, stringify: JValue -> string)
      ensures Valid()
      ensures this.parse == parse && this.stringify == stringify
      ensures rawJsonInput == stringify(JObj(SampleJson))
      ensures vibeJsonData == SampleJson
      ensures parseError == None
      ensures !allSectionsCollapsed
    {
      this.parse := parse;
      this.stringify := stringify;
      rawJsonInput := stringify(JObj(SampleJson));
      vibeJsonData := SampleJson;
      parseError := None;
      allSectionsCollapsed := false;
      EncodedDocumentShape(SampleVibeData);
    }

    /**
     * handleParseJson: on success the normalised document replaces the old
     * one and the error is cleared; on a syntax or gate failure the
     * document stays and the error is set. The raw text is never touched.
     */
    method ParseJson()
      requires Valid()
      modifies this
      ensures Valid()
      ensures rawJsonInput == old(rawJsonInput) && allSectionsCollapsed == old(allSectionsCollapsed)
      ensures ParseAndValidate(parse(rawJsonInput)).Success? ==>
        vibeJsonData == ParseAndValidate(parse(rawJsonInput)).value && parseError == None
      ensures ParseAndValidate(parse(rawJsonInput)).Failure? ==>
        vibeJsonData == old(vibeJsonData) && parseError == Some(ParseAndValidate(parse(rawJsonInput)).error)
    {
      var outcome := ParseAndValidate(parse(rawJsonInput));
      match outcome
      case Success(completeData) =>
        vibeJsonData := completeData;
        parseError := None;
      case Failure(message) =>
        parseError := Some(message);
    }

    /** The text editor's onChange: only the raw text changes; nothing is parsed until Parse. */
    method SetRawJsonInput(text: string)
      modifies this
      ensures rawJsonInput == text
      ensures vibeJsonData == old(vibeJsonData) && parseError == old(parseError)
      ensures allSectionsCollapsed == old(allSectionsCollapsed)
    {
      rawJsonInput := text;
    }

    /**
     * handleVibeDataChange: the new document and its text; the error stays
     * as it was. Its one caller, the structured editor, only hands it
     * section and header edits of the current document, and those keep the
     * document complete (StructureEditor.ListSectionChangeKeepsComplete and
     * StructureEditor.HeaderChangeKeepsComplete).
     */
    method VibeDataChange(newData: map<string, JValue>)
      requires IsCompleteDocument(newData)
      modifies this
      ensures Valid()
      ensures vibeJsonData == newData
      ensures rawJsonInput == stringify(JObj(newData))
      ensures parseError == old(parseError) && allSectionsCollapsed == old(allSectionsCollapsed)
    {
      vibeJsonData := newData;
      rawJsonInput := stringify(JObj(newData));
    }

    /** handleLoadEmpty: the empty template and its text, and no error. */
    method LoadEmpty()
      modifies this
      ensures Valid()
      ensures rawJsonInput == stringify(JObj(EmptyJson)) && vibeJsonData == EmptyJson
      ensures parseError == None && allSectionsCollapsed == old(allSectionsCollapsed)
    {
      rawJsonInput := stringify(JObj(EmptyJson));
      vibeJsonData := EmptyJson;
      parseError := None;
      EncodedDocumentShape(EmptyVibeData);
    }

    /** handleLoadSample: the sample document and its text, and no error. */
    method LoadSample()
      modifies this
      ensures Valid()
      ensures rawJsonInput == stringify(JObj(SampleJson)) && vibeJsonData == SampleJson
      ensures parseError == None && allSectionsCollapsed == old(allSectionsCollapsed)
    {
      rawJsonInput := stringify(JObj(SampleJson));
      vibeJsonData := SampleJson;
      parseError := None;
      EncodedDocumentShape(SampleVibeData);
    }

    /** handleToggleAllSections: only the master flag changes. */
    method ToggleAllSections()
      modifies this
      ensures allSectionsCollapsed == !old(allSectionsCollapsed)
      ensures rawJsonInput == old(rawJsonInput) && vibeJsonData == old(vibeJsonData) && parseError == old(parseError)
    {
      allSectionsCollapsed := !allSectionsCollapsed;
    }
  }

  /**
   * A structured edit followed by Parse: the text the edit wrote parses
   * back to the edited document, provided the printer and the parser
   * agree on it.
   */
  method EditThenParse(app: App, newData: map<string, JValue>)
    requires app.Valid() && IsCompleteDocument(newData)
    requires app.parse(app.stringify(JObj(newData))) == Success(JObj(newData))
    modifies app
    ensures app.vibeJsonData == newData && app.parseError == None
    ensures app.rawJsonInput == app.stringify(JObj(newData))
  {
    app.VibeDataChange(newData);
    ReparseComplete(newData);
    app.ParseJson();
  }
}
