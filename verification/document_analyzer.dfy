/** The text side of backend/document_analyzer.py: reading "label: value"
    lines out of the vision model's answer (`extract_field`,
    `extract_coverage`, `parse_extraction_response`) and the dispatch on the
    upload's mime type in `analyze_insurance_document`. The model call is an
    external collaborator; its outcome comes in as a parameter. */
module DocumentAnalyzer {
  import opened Wrappers
  import opened Text

  const NotFound: string := "Not found"

  // ===========================================================================
  // extract_field
  // ===========================================================================

  /** `line.split(':', 1)[1].strip()`. */
  function FieldValue(line: string): string
    requires ':' in line
  {
    Strip(AfterFirst(line, ':'))
  }

  /** A line the inner loop returns from for `keyword`: it mentions the
      keyword (ignoring case), has a colon, and the value after the first
      colon is neither empty nor the literal "Not found". */
  predicate Qualifies(line: string, keyword: string) {
    Contains(Lower(line), keyword) && ':' in line && FieldValue(line) != "" && FieldValue(line) != NotFound
  }

  /** The value of the first line that qualifies for `keyword`, if any. */
  function FirstInLines(lines: seq<string>, keyword: string): Option<string> {
    if lines == [] then None
    else if Qualifies(lines[0], keyword) then Some(FieldValue(lines[0]))
    else FirstInLines(lines[1..], keyword)
  }

  /** What `extract_field(text, keywords)` returns: keywords in list order,
      each searched only when it occurs in the lower-cased text, lines in text
      order. */
  function ExtractFieldSpec(text: string, keywords: seq<string>): string {
    if keywords == [] then NotFound
    else
      var found := if Contains(Lower(text), keywords[0]) then FirstInLines(Split(text, '\n'), keywords[0]) else None;
      if found.Some? then found.value else ExtractFieldSpec(text, keywords[1..])
  }

  /** `extract_field`: the nested loops over keywords and lines, returning
      from the inner loop at the first qualifying line. */
  method ExtractField(text: string, keywords: seq<string>) returns (value: string)
    ensures value == ExtractFieldSpec(text, keywords)
  {
    var textLower := Lower(text);
    var i := 0;
    while i < |keywords|
      invariant 0 <= i <= |keywords|
      invariant ExtractFieldSpec(text, keywords) == ExtractFieldSpec(text, keywords[i..])
    {
      var keyword := keywords[i];
      assert keywords[i..][1..] == keywords[i + 1..];
      if Contains(textLower, keyword) {
        var lines := Split(text, '\n');
        var j := 0;
        while j < |lines|
          invariant 0 <= j <= |lines|
          invariant FirstInLines(lines, keyword) == FirstInLines(lines[j..], keyword)
        {
          var line := lines[j];
          assert lines[j..][1..] == lines[j + 1..];
          if Contains(Lower(line), keyword) {
            if ':' in line {
              var v := Strip(AfterFirst(line, ':'));
              if v != "" && v != NotFound {
                return v;
              }
            }
          }
          j := j + 1;
        }
      }
      i := i + 1;
    }
    return NotFound;
  }

  /** A line that qualifies for a keyword is a piece of the text, so the
      keyword occurs in the whole lower-cased text too. */
  lemma QualifyingLineInText(text: string, j: nat, keyword: string)
    requires j < |Split(text, '\n')| && Qualifies(Split(text, '\n')[j], keyword)
    ensures Contains(Lower(text), keyword)
  {
    SplitPartLowerContained(text, '\n', j, keyword);
  }

  /** `FirstInLines` finds a value exactly when some line qualifies, and then
      it is the value of the first such line. */
  lemma {:induction false} FirstInLinesFound(lines: seq<string>, keyword: string) returns (j: nat)
    requires exists l | 0 <= l < |lines| :: Qualifies(lines[l], keyword)
    ensures j < |lines| && Qualifies(lines[j], keyword)
    ensures FirstInLines(lines, keyword) == Some(FieldValue(lines[j]))
    ensures forall l | 0 <= l < j :: !Qualifies(lines[l], keyword)
    decreases |lines|
  {
    if Qualifies(lines[0], keyword) {
      j := 0;
    } else {
      var l :| 0 <= l < |lines| && Qualifies(lines[l], keyword);
      assert lines[1..][l - 1] == lines[l];
      var j' := FirstInLinesFound(lines[1..], keyword);
      j := j' + 1;
      forall l' | 0 <= l' < j ensures !Qualifies(lines[l'], keyword) {
        if l' > 0 {
          assert lines[l'] == lines[1..][l' - 1];
        }
      }
    }
  }

  lemma {:induction false} FirstInLinesNone(lines: seq<string>, keyword: string)
    requires forall l | 0 <= l < |lines| :: !Qualifies(lines[l], keyword)
    ensures FirstInLines(lines, keyword) == None
    decreases |lines|
  {
    if lines != [] {
      assert forall l | 0 <= l < |lines| - 1 :: lines[1..][l] == lines[l + 1];
      FirstInLinesNone(lines[1..], keyword);
    }
  }

  /** "Not found" comes back exactly when no (keyword, line) pair qualifies;
      in particular whenever no keyword occurs in the lower-cased text. */
  lemma {:induction false} ExtractFieldNotFoundIff(text: string, keywords: seq<string>)
    ensures var lines := Split(text, '\n');
      ExtractFieldSpec(text, keywords) == NotFound <==>
        forall k, l | 0 <= k < |keywords| && 0 <= l < |lines| :: !Qualifies(lines[l], keywords[k])
    ensures (forall k | 0 <= k < |keywords| :: !Contains(Lower(text), keywords[k])) ==>
      ExtractFieldSpec(text, keywords) == NotFound
    decreases |keywords|
  {
    var lines := Split(text, '\n');
    if keywords != [] {
      ExtractFieldNotFoundIff(text, keywords[1..]);
      assert forall k | 1 <= k < |keywords| :: keywords[1..][k - 1] == keywords[k];
      if exists l | 0 <= l < |lines| :: Qualifies(lines[l], keywords[0]) {
        var j := FirstInLinesFound(lines, keywords[0]);
        QualifyingLineInText(text, j, keywords[0]);
      } else {
        FirstInLinesNone(lines, keywords[0]);
      }
    }
  }

  /** Any other answer is the stripped text after the first colon of a line
      that mentions a keyword: the first qualifying pair, keywords in list
      order and lines in text order. It is never empty and never "Not found". */
  lemma {:induction false} ExtractFieldFound(text: string, keywords: seq<string>) returns (k: nat, l: nat)
    requires ExtractFieldSpec(text, keywords) != NotFound
    ensures var lines := Split(text, '\n');
      && k < |keywords| && l < |lines| && Qualifies(lines[l], keywords[k])
      && ExtractFieldSpec(text, keywords) == FieldValue(lines[l])
      && (forall k', l' | 0 <= k' < k && 0 <= l' < |lines| :: !Qualifies(lines[l'], keywords[k']))
      && (forall l' | 0 <= l' < l :: !Qualifies(lines[l'], keywords[k]))
    ensures ExtractFieldSpec(text, keywords) != ""
    decreases |keywords|
  {
    var lines := Split(text, '\n');
    if exists l0 | 0 <= l0 < |lines| :: Qualifies(lines[l0], keywords[0]) {
      l := FirstInLinesFound(lines, keywords[0]);
      QualifyingLineInText(text, l, keywords[0]);
      k := 0;
    } else {
      FirstInLinesNone(lines, keywords[0]);
      var k', l' := ExtractFieldFound(text, keywords[1..]);
      k, l := k' + 1, l';
      assert keywords[1..][k'] == keywords[k];
      forall k0, l0 | 0 <= k0 < k && 0 <= l0 < |lines| ensures !Qualifies(lines[l0], keywords[k0]) {
        if k0 > 0 {
          assert keywords[k0] == keywords[1..][k0 - 1];
        }
      }
    }
  }

  // ===========================================================================
  // extract_coverage
  // ===========================================================================

  /** `coverage_terms`, in its insertion order. */
  const CoverageTerms: seq<(string, seq<string>)> := [
    ("liability", ["liability", "bodily injury", "property damage"]),
    ("collision", ["collision"]),
    ("comprehensive", ["comprehensive", "comp"]),
    ("deductible", ["deductible"]),
    ("dwelling", ["dwelling", "coverage a"]),
    ("personal_property", ["personal property", "contents", "coverage c"])]

  const CoverageNames: set<string> :=
    {"liability", "collision", "comprehensive", "deductible", "dwelling", "personal_property"}

  /** The dictionary after the loop has gone through `terms`, one insertion
      per term whose field is found. */
  function CoverageFrom(text: string, terms: seq<(string, seq<string>)>): map<string, string> {
    if terms == [] then map[]
    else
      var coverage := CoverageFrom(text, terms[..|terms| - 1]);
      var (name, keywords) := terms[|terms| - 1];
      var value := ExtractFieldSpec(text, keywords);
      if value != NotFound then coverage[name := value] else coverage
  }

  /** `extract_coverage`: fills the dictionary in place, term by term. */
  method ExtractCoverage(text: string) returns (coverage: map<string, string>)
    ensures coverage == CoverageFrom(text, CoverageTerms)
  {
    coverage := map[];
    var i := 0;
    while i < |CoverageTerms|
      invariant 0 <= i <= |CoverageTerms|
      invariant coverage == CoverageFrom(text, CoverageTerms[..i])
    {
      var (name, keywords) := CoverageTerms[i];
      assert CoverageTerms[..i + 1][..i] == CoverageTerms[..i];
      var value := ExtractField(text, keywords);
      if value != NotFound {
        coverage := coverage[name := value];
      }
      i := i + 1;
    }
    assert CoverageTerms[..|CoverageTerms|] == CoverageTerms;
  }

  /** With distinct names, a name is a key exactly when its field is found,
      and then holds that field; there are no other keys. */
  lemma {:induction false} CoverageFromKeys(text: string, terms: seq<(string, seq<string>)>)
    requires forall i, j | 0 <= i < j < |terms| :: terms[i].0 != terms[j].0
    ensures forall name | name in CoverageFrom(text, terms) :: exists i | 0 <= i < |terms| :: terms[i].0 == name
    ensures forall i | 0 <= i < |terms| ::
      && (terms[i].0 in CoverageFrom(text, terms) <==> ExtractFieldSpec(text, terms[i].1) != NotFound)
      && (terms[i].0 in CoverageFrom(text, terms) ==> CoverageFrom(text, terms)[terms[i].0] == ExtractFieldSpec(text, terms[i].1))
    decreases |terms|
  {
    if terms != [] {
      var front := terms[..|terms| - 1];
      CoverageFromKeys(text, front);
      assert forall i | 0 <= i < |front| :: front[i] == terms[i];
    }
  }

  /** The keys of `extract_coverage`'s result are among the six coverage
      names, and a name is present exactly when `extract_field` with its
      keywords does not answer "Not found". */
  lemma ExtractCoverageKeys(text: string)
    ensures CoverageFrom(text, CoverageTerms).Keys <= CoverageNames
    ensures forall i | 0 <= i < |CoverageTerms| ::
      && (CoverageTerms[i].0 in CoverageFrom(text, CoverageTerms) <==> ExtractFieldSpec(text, CoverageTerms[i].1) != NotFound)
      && (CoverageTerms[i].0 in CoverageFrom(text, CoverageTerms) ==>
            CoverageFrom(text, CoverageTerms)[CoverageTerms[i].0] == ExtractFieldSpec(text, CoverageTerms[i].1))
  {
    CoverageFromKeys(text, CoverageTerms);
  }

  // ===========================================================================
  // parse_extraction_response
  // ===========================================================================

  /** A value of the structured dictionary: a field's text, or the coverage
      dictionary. */
  datatype Extracted = FieldText(text: string) | CoverageDetails(coverage: map<string, string>)

  /** The six text fields of the parsed response and the keywords each is
      looked up with. */
  const FieldKeywords: map<string, seq<string>> := map[
    "provider" := ["provider", "company", "insurer"],
    "policy_type" := ["policy type", "insurance type"],
    "policy_number" := ["policy number", "policy #"],
    "current_premium" := ["premium", "monthly payment", "annual premium"],
    "policyholder" := ["policyholder", "insured", "name"],
    "policy_period" := ["policy period", "effective dates", "coverage period"]]

  const CoverageKey: string := "coverage_details"

  /** The seven keys of the parsed response. */
  const ExtractedKeys: set<string> := FieldKeywords.Keys + {CoverageKey}

  /** `parse_extraction_response`: always the same seven keys; each text
      field is `extract_field` with its keywords, so "Not found" or a
      non-empty value; the coverage details use only the six coverage names. */
  function ParseExtractionResponse(text: string): (data: map<string, Extracted>)
    ensures data.Keys == ExtractedKeys
    ensures data[CoverageKey] == CoverageDetails(CoverageFrom(text, CoverageTerms))
    ensures data[CoverageKey].coverage.Keys <= CoverageNames
    ensures forall key | key in FieldKeywords ::
      && data[key] == FieldText(ExtractFieldSpec(text, FieldKeywords[key]))
      && (data[key].text == NotFound || data[key].text != "")
  {
    ExtractCoverageKeys(text);
    forall key | key in FieldKeywords
      ensures var v := ExtractFieldSpec(text, FieldKeywords[key]); v == NotFound || v != ""
    {
      FieldNonEmpty(text, FieldKeywords[key]);
    }
    assert CoverageKey !in FieldKeywords;
    (map key | key in FieldKeywords :: FieldText(ExtractFieldSpec(text, FieldKeywords[key])))
      [CoverageKey := CoverageDetails(CoverageFrom(text, CoverageTerms))]
  }

  lemma FieldNonEmpty(text: string, keywords: seq<string>)
    ensures ExtractFieldSpec(text, keywords) == NotFound || ExtractFieldSpec(text, keywords) != ""
  {
    if ExtractFieldSpec(text, keywords) != NotFound {
      var _, _ := ExtractFieldFound(text, keywords);
    }
  }

  // ===========================================================================
  // analyze_insurance_document: dispatch on the mime type
  // ===========================================================================

  datatype FileKind = ImageFile | PdfFile | UnsupportedFile

  function FileKindOf(mimeType: string): FileKind {
    if StartsWith(mimeType, "image/") then ImageFile
    else if mimeType == "application/pdf" then PdfFile
    else UnsupportedFile
  }

  /** What happens when the file is handed to the vision model: it answers
      with text, the preparation or the call itself raises (inside the
      per-kind `try`), or reading the answer's text raises (caught by the
      outer `try`). */
  datatype ModelCall = Replied(text: string) | CallRaised(message: string) | ResponseRaised(message: string)

  datatype Analysis =
    | Analysed(extractedData: map<string, Extracted>, rawAnalysis: string)
    | Failed(error: string, message: string)

  const UnsupportedError: string := "Unsupported file type"

  /** `analyze_insurance_document(file_content, mime_type)`, given the
      model's behaviour on this file. */
  function AnalyzeInsuranceDocument(mimeType: string, call: ModelCall): (a: Analysis)
    ensures a.Analysed? <==> FileKindOf(mimeType) != UnsupportedFile && call.Replied?
    ensures a.Analysed? ==> a.rawAnalysis == call.text && a.extractedData.Keys == ExtractedKeys
    ensures a.Analysed? ==> a.extractedData == ParseExtractionResponse(call.text)
    ensures FileKindOf(mimeType) == UnsupportedFile ==> a.Failed? && a.error == UnsupportedError
  {
    match FileKindOf(mimeType)
    case UnsupportedFile =>
      Failed(UnsupportedError, "Unsupported file type: " + mimeType + ". Please upload a PDF, PNG, or JPG.")
    case ImageFile =>
      (match call
       case CallRaised(e) => Failed(e, "Could not process image. Please ensure it's a valid image file.")
       case ResponseRaised(e) => GeneralFailure(e)
       case Replied(t) => Analysed(ParseExtractionResponse(t), t))
    case PdfFile =>
      (match call
       case CallRaised(e) => Failed(e, "Could not process PDF. Please try uploading an image (PNG/JPG) of your policy instead.")
       case ResponseRaised(e) => GeneralFailure(e)
       case Replied(t) => Analysed(ParseExtractionResponse(t), t))
  }

  function GeneralFailure(e: string): Analysis {
    Failed(e, "Could not analyze document: " + e + ". Please ensure it's a valid insurance document.")
  }

  /** An unsupported type is answered without consulting the model: the
      result is the same whatever the model would have done, and names the
      offending type. */
  lemma UnsupportedNeverCallsModel(mimeType: string, c1: ModelCall, c2: ModelCall)
    requires FileKindOf(mimeType) == UnsupportedFile
    ensures AnalyzeInsuranceDocument(mimeType, c1) == AnalyzeInsuranceDocument(mimeType, c2)
    ensures !StartsWith(mimeType, "image/") && mimeType != "application/pdf"
    ensures AnalyzeInsuranceDocument(mimeType, c1).message
         == "Unsupported file type: " + mimeType + ". Please upload a PDF, PNG, or JPG."
  {
  }

  /** Images and PDFs go through the same parsing; they differ only in the
      message shown when the model call raises. */
  lemma ImageAndPdfAgreeOnReplies(image: string, text: string)
    requires StartsWith(image, "image/")
    ensures AnalyzeInsuranceDocument(image, Replied(text)) == AnalyzeInsuranceDocument("application/pdf", Replied(text))
    ensures AnalyzeInsuranceDocument(image, CallRaised(text)).error
         == AnalyzeInsuranceDocument("application/pdf", CallRaised(text)).error
    ensures AnalyzeInsuranceDocument(image, CallRaised(text)).message
         != AnalyzeInsuranceDocument("application/pdf", CallRaised(text)).message
  {
    assert "image/"[0] != "application/pdf"[0];
  }
}
