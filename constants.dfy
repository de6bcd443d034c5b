/** The option lists of the header's drop-downs and the two built-in documents. */
module Constants {
  import opened Wrappers
  import opened Json
  import opened Schema

  // ---------------------------------------------------------------------
  // Option lists: `Object.values` of each enumeration, in declaration order

  const LanguageOrder: seq<OriginalLanguage> := [Python, Cpp, JavaScript, Rust, Java, CSharp, Go, Other]
  const ComplexityOrder: seq<ComplexityLevel> := [Beginner, Intermediate, Advanced]
  const ConfidenceOrder: seq<TranslationConfidence> := [High, Medium, Low]

  const OriginalLanguageOptions: seq<string> := seq(|LanguageOrder|, i requires 0 <= i < |LanguageOrder| => LanguageName(LanguageOrder[i]))
  const ComplexityLevelOptions: seq<string> := seq(|ComplexityOrder|, i requires 0 <= i < |ComplexityOrder| => ComplexityName(ComplexityOrder[i]))
  const TranslationConfidenceOptions: seq<string> := seq(|ConfidenceOrder|, i requires 0 <= i < |ConfidenceOrder| => ConfidenceName(ConfidenceOrder[i]))

  /** Each option list holds every member's name once, in declaration order. */
  lemma OptionListsExact()
    ensures OriginalLanguageOptions == ["Python", "C++", "JavaScript", "Rust", "Java", "C#", "Go", "Other"]
    ensures ComplexityLevelOptions == ["Beginner", "Intermediate", "Advanced"]
    ensures TranslationConfidenceOptions == ["High", "Medium", "Low"]
    ensures forall l :: LanguageName(l) in OriginalLanguageOptions
    ensures forall c :: ComplexityName(c) in ComplexityLevelOptions
    ensures forall c :: ConfidenceName(c) in TranslationConfidenceOptions
  {
    LanguageOptionsExact();
    LevelOptionsExact();
  }

  lemma LanguageOptionsExact()
    ensures OriginalLanguageOptions == ["Python", "C++", "JavaScript", "Rust", "Java", "C#", "Go", "Other"]
    ensures forall l :: LanguageName(l) in OriginalLanguageOptions
  {
    assert OriginalLanguageOptions == ["Python", "C++", "JavaScript", "Rust", "Java", "C#", "Go", "Other"];
    forall l ensures LanguageName(l) in OriginalLanguageOptions {
      match l
      case Python => assert OriginalLanguageOptions[0] == LanguageName(l);
      case Cpp => assert OriginalLanguageOptions[1] == LanguageName(l);
      case JavaScript => assert OriginalLanguageOptions[2] == LanguageName(l);
      case Rust => assert OriginalLanguageOptions[3] == LanguageName(l);
      case Java => assert OriginalLanguageOptions[4] == LanguageName(l);
      case CSharp => assert OriginalLanguageOptions[5] == LanguageName(l);
      case Go => assert OriginalLanguageOptions[6] == LanguageName(l);
      case Other => assert OriginalLanguageOptions[7] == LanguageName(l);
    }
  }

  lemma LevelOptionsExact()
    ensures ComplexityLevelOptions == ["Beginner", "Intermediate", "Advanced"]
    ensures TranslationConfidenceOptions == ["High", "Medium", "Low"]
    ensures forall c :: ComplexityName(c) in ComplexityLevelOptions
    ensures forall c :: ConfidenceName(c) in TranslationConfidenceOptions
  {
    forall c ensures ComplexityName(c) in ComplexityLevelOptions {
      match c
      case Beginner => assert ComplexityLevelOptions[0] == ComplexityName(c);
      case Intermediate => assert ComplexityLevelOptions[1] == ComplexityName(c);
      case Advanced => assert ComplexityLevelOptions[2] == ComplexityName(c);
    }
    forall c ensures ConfidenceName(c) in TranslationConfidenceOptions {
      match c
      case High => assert TranslationConfidenceOptions[0] == ConfidenceName(c);
      case Medium => assert TranslationConfidenceOptions[1] == ConfidenceName(c);
      case Low => assert TranslationConfidenceOptions[2] == ConfidenceName(c);
    }
  }

  // ---------------------------------------------------------------------
  // The empty template and the sample document

  const EmptyHeader: HeaderData := HeaderData(LanguageName(Python), "", Beginner, Medium)

  const EmptyVibeData: VibePlusPlusData :=
    VibePlusPlusData(EmptyHeader, [], [], [], [], [], [], [], [], [], [])

  const SampleHeader: HeaderData := HeaderData(LanguageName(Python), "<Your code snippet here>", Beginner, Medium)

  const SampleVibeData: VibePlusPlusData :=
    VibePlusPlusData(
      SampleHeader,
      ["import os", "import sys"],
      ["MAX_RETRIES = 3", "TIMEOUT = 10.0"],
      [VariableData("counter", "number", NumberValue(0)),
       VariableData("userName", "text", TextValue("guest"))],
      [ClassData("Car", "Represents a vehicle",
                 [AttributeData("speed", "number"), AttributeData("color", "text")],
                 [MethodData("accelerate", "Increase speed"), MethodData("brake", "Decrease speed")])],
      [FunctionData("calculateSum", "Add two numbers",
                    [InputData("a", "number"), InputData("b", "number")],
                    "number",
                    ["Take input a", "Take input b", "Add a and b", "Return result"])],
      ["If input is empty, show an error message."],
      ["Repeat 5 times: ask user for a value."],
      ["On division by zero: show error and cancel operation."],
      ["Start program", "Ask user for two numbers", "Call calculateSum", "Display result", "End program"],
      ["This is an example structure."])

  /** EMPTY_VIBE_JSON_DATA as the JSON object the editor holds. */
  const EmptyJson: map<string, JValue> := EncodeFields(EmptyVibeData)

  /** INITIAL_VIBE_JSON_DATA as the JSON object the editor holds. */
  const SampleJson: map<string, JValue> := EncodeFields(SampleVibeData)

  /** The empty header names Python, an empty snippet, Beginner and Medium. */
  lemma EmptyHeaderFields()
    ensures "Header" in EmptyJson
    ensures EmptyJson["Header"] == JObj(map[
      "Original_Language" := JStr("Python"),
      "Original_Code_Snippet" := JStr(""),
      "Detected_Complexity_Level" := JStr("Beginner"),
      "Translation_Confidence" := JStr("Medium")])
  {
  }

  /** All ten list sections of the empty template are empty arrays. */
  lemma EmptyListsAreEmpty()
    ensures forall k :: k in ListSectionNames ==> k in EmptyJson && EmptyJson[k] == JArr([])
  {
  }

  /** The sample header differs from the empty one in the code snippet alone. */
  lemma SampleHeaderDiffersOnlyInSnippet()
    ensures SampleHeader == EmptyHeader.(originalCodeSnippet := "<Your code snippet here>")
    ensures SampleHeader != EmptyHeader
  {
  }

  /** Both built-in documents are well formed, so they hold all eleven keys and array-valued lists. */
  lemma ConstantsWellFormed()
    ensures DecodeDocument(JObj(EmptyJson)) == Some(EmptyVibeData)
    ensures DecodeDocument(JObj(SampleJson)) == Some(SampleVibeData)
    ensures IsCompleteDocument(EmptyJson) && IsCompleteDocument(SampleJson)
  {
    DecodeEncodeDocument(EmptyVibeData);
    DecodeEncodeDocument(SampleVibeData);
    EncodedDocumentShape(EmptyVibeData);
    EncodedDocumentShape(SampleVibeData);
  }

  /** The sample's variables start from a number and from a string. */
  lemma SampleInitialValuesMix()
    ensures SampleJson["Variables"].JArr? && |SampleJson["Variables"].elems| == 2
    ensures SampleJson["Variables"].elems[0].fields["initial_value"] == JNum(0)
    ensures SampleJson["Variables"].elems[1].fields["initial_value"] == JStr("guest")
  {
  }
}
