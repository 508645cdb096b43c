/**
 * The synthesis and strategy assistant (rag-juridique/api/synthese_strategie.py): gathering
 * the documents of a request, the branches of the generation step, and the extraction of
 * key points and recommendations from the generated text.
 *
 * File extraction, the legal-corpus search used for enrichment and the text generator are
 * inputs: the extracted text (or error) of each file, the enrichment text, and the
 * generator's answer.
 */
module SyntheseStrategie {
  import opened Wrappers
  import opened Strings
  import opened ApiModels

  // ---------------------------------------------------------------------------
  // Key points
  // ---------------------------------------------------------------------------

  /** The characters `_extract_key_points` strips from the front of a point. */
  const KeyPointChars: set<char> := {'-', '•', '*', '0', '1', '2', '3', '4', '5', '6', '7', '8', '9', '.', ' ', ')'}

  /** A stripped line that opens with a bullet (`-`, `•`, `*`) or with a digit followed
      by `.` or `)`; "digit" is Python's, so a superscript such as "²" counts. */
  predicate IsPointLine(line: string) {
    line != []
    && (StartsWith(line, "-") || StartsWith(line, "•") || StartsWith(line, "*")
        || (|line| > 2 && IsPyDigit(line[0]) && (line[1] == '.' || line[1] == ')')))
  }

  /** The key point one line of text gives, if any. */
  function KeyPointOf(raw: string): (p: Option<string>)
    ensures p.Some? ==> IsPointLine(Strip(raw)) && 10 < |p.value| <= 200
    ensures p.Some? ==> p.value == Take(LStripChars(Strip(raw), KeyPointChars), 200)
    ensures p.None? ==> !IsPointLine(Strip(raw)) || |LStripChars(Strip(raw), KeyPointChars)| <= 10
  {
    var line := Strip(raw);
    if IsPointLine(line) then
      var cleaned := LStripChars(line, KeyPointChars);
      if cleaned != [] && |cleaned| > 10 then Some(Take(cleaned, 200)) else None
    else None
  }

  /** Every key point of the lines, in line order, before the final cut to ten. */
  function AllKeyPoints(lines: seq<string>): seq<string>
    decreases |lines|
  {
    if lines == [] then []
    else
      var pre := AllKeyPoints(lines[..|lines| - 1]);
      match KeyPointOf(lines[|lines| - 1])
      case Some(p) => pre + [p]
      case None => pre
  }

  /** Each key point is what `KeyPointOf` makes of one of the lines. */
  lemma {:induction false} KeyPointsComeFromPointLines(lines: seq<string>)
    ensures forall p :: p in AllKeyPoints(lines) ==> exists l :: l in lines && KeyPointOf(l) == Some(p)
    decreases |lines|
  {
    if lines != [] {
      var pre := lines[..|lines| - 1];
      KeyPointsComeFromPointLines(pre);
      forall p | p in AllKeyPoints(lines) ensures exists l :: l in lines && KeyPointOf(l) == Some(p) {
        if p in AllKeyPoints(pre) {
          var l :| l in pre && KeyPointOf(l) == Some(p);
          assert l in lines;
        } else {
          assert lines[|lines| - 1] in lines;
        }
      }
    }
  }

  /** `_extract_key_points`: at most ten points of at most 200 characters each. */
  method ExtractKeyPoints(text: string) returns (points: seq<string>)
    ensures points == Take(AllKeyPoints(Split(text, '\n')), 10)
    ensures |points| <= 10
    ensures forall p :: p in points ==> 10 < |p| <= 200
    ensures forall p :: p in points ==> exists l :: l in Split(text, '\n') && KeyPointOf(l) == Some(p)
  {
    var lines := Split(text, '\n');
    var found: seq<string> := [];
    for i := 0 to |lines|
      invariant found == AllKeyPoints(lines[..i])
    {
      assert lines[..i + 1][..i] == lines[..i];
      var p := KeyPointOf(lines[i]);
      if p.Some? {
        found := found + [p.value];
      }
    }
    assert lines[..|lines|] == lines;
    points := Take(found, 10);
    KeyPointsComeFromPointLines(lines);
    forall p | p in points
      ensures 10 < |p| <= 200 && exists l :: l in lines && KeyPointOf(l) == Some(p)
    {
      assert p in found;
      var l :| l in lines && KeyPointOf(l) == Some(p);
    }
  }

  // ---------------------------------------------------------------------------
  // Recommendations
  // ---------------------------------------------------------------------------

  /** The words whose presence in a lower-cased line opens the recommendations section. */
  const SectionKeywords: seq<string> := ["recommand", "stratég", "conseil", "action", "étape"]

  predicate OpensSection(line: string) {
    exists k :: 0 <= k < |SectionKeywords| && Contains(Lower(line), SectionKeywords[k])
  }

  /** A numbered heading closes the section: a non-blank line whose first character is a
      digit (in Python's sense) and which has a "." among its first five characters. */
  predicate ClosesSection(line: string) {
    Strip(line) != [] && line != [] && IsPyDigit(line[0]) && '.' in Take(line, 5)
  }

  const RecommendationChars: set<char> := {'-', '•', '*', ' '}

  /** The recommendation a line inside the section gives: a `-` or `•` bullet whose text
      is longer than ten characters, cut to 200. */
  function RecommendationOf(line: string): (r: Option<string>)
    ensures r.Some? ==> 10 < |r.value| <= 200
  {
    var t := Strip(line);
    if t != [] && (StartsWith(t, "-") || StartsWith(t, "•")) then
      var cleaned := LStripChars(t, RecommendationChars);
      if cleaned != [] && |cleaned| > 10 then Some(Take(cleaned, 200)) else None
    else None
  }

  /** One step of the scan: the new section flag and the recommendation kept, if any. */
  function RecoStep(inSection: bool, line: string): (bool, Option<string>) {
    if OpensSection(line) then (true, None)
    else
      var stillIn := inSection && !ClosesSection(line);
      (stillIn, if stillIn then RecommendationOf(line) else None)
  }

  /** The state after scanning `lines`: whether the section is open, and the
      recommendations kept so far, before the final cut to ten. */
  function RecoScan(lines: seq<string>): (bool, seq<string>)
    decreases |lines|
  {
    if lines == [] then (false, [])
    else
      var (inSection, recs) := RecoScan(lines[..|lines| - 1]);
      var (next, kept) := RecoStep(inSection, lines[|lines| - 1]);
      (next, if kept.Some? then recs + [kept.value] else recs)
  }

  /** Without a line naming a section keyword, the section never opens and nothing is kept. */
  lemma {:induction false} NoKeywordNothingKept(lines: seq<string>)
    requires forall l :: l in lines ==> !OpensSection(l)
    ensures !RecoScan(lines).0 && RecoScan(lines).1 == []
    decreases |lines|
  {
    if lines != [] {
      var pre := lines[..|lines| - 1];
      assert forall l :: l in pre ==> l in lines;
      NoKeywordNothingKept(pre);
      assert !OpensSection(lines[|lines| - 1]);
    }
  }

  /** Every recommendation the scan keeps has between 11 and 200 characters. */
  lemma {:induction false} RecoScanBounds(lines: seq<string>)
    ensures forall r :: r in RecoScan(lines).1 ==> 10 < |r| <= 200
    decreases |lines|
  {
    if lines != [] {
      var pre := lines[..|lines| - 1];
      RecoScanBounds(pre);
      var recs := RecoScan(pre).1;
      var kept := RecoStep(RecoScan(pre).0, lines[|lines| - 1]).1;
      assert RecoScan(lines).1 == if kept.Some? then recs + [kept.value] else recs;
      if kept.Some? {
        RecoStepBounds(RecoScan(pre).0, lines[|lines| - 1]);
        forall r | r in recs + [kept.value]
          ensures 10 < |r| <= 200
        {
          if r !in recs {
            assert r == kept.value;
          }
        }
      }
    }
  }

  lemma RecoStepBounds(inSection: bool, line: string)
    ensures RecoStep(inSection, line).1.Some? ==> 10 < |RecoStep(inSection, line).1.value| <= 200
  {
  }

  /** A line naming a section keyword is never itself kept, whatever it looks like. */
  lemma KeywordLineNotKept(inSection: bool, line: string)
    requires OpensSection(line)
    ensures RecoStep(inSection, line) == (true, None)
  {
  }

  /** `_extract_recommendations`: the section flag is raised by a keyword line, lowered by
      a numbered heading, and only bullets inside the section are kept, ten at most. */
  method ExtractRecommendations(text: string) returns (recommendations: seq<string>)
    ensures recommendations == Take(RecoScan(Split(text, '\n')).1, 10)
    ensures |recommendations| <= 10
    ensures forall r :: r in recommendations ==> 10 < |r| <= 200
    ensures (forall l :: l in Split(text, '\n') ==> !OpensSection(l)) ==> recommendations == []
  {
    var lines := Split(text, '\n');
    var found: seq<string> := [];
    var inRecoSection := false;
    for i := 0 to |lines|
      invariant (inRecoSection, found) == RecoScan(lines[..i])
    {
      assert lines[..i + 1][..i] == lines[..i];
      var line := lines[i];
      if OpensSection(line) {
        inRecoSection := true;
      } else {
        if inRecoSection && ClosesSection(line) {
          inRecoSection := false;
        }
        if inRecoSection {
          var r := RecommendationOf(line);
          if r.Some? {
            found := found + [r.value];
          }
        }
      }
    }
    assert lines[..|lines|] == lines;
    RecoScanBounds(lines);
    if forall l :: l in lines ==> !OpensSection(l) {
      NoKeywordNothingKept(lines);
    }
    recommendations := Take(found, 10);
  }

  // ---------------------------------------------------------------------------
  // Documents of a request
  // ---------------------------------------------------------------------------

  /** An item of the frontend `documents` list: a dict with a `content` key, any other
      dict or value, or a plain string. */
  datatype FrontendDoc = DictWithContent(content: Option<string>) | TextDoc(text: string) | OtherDoc

  /** The texts `_get_documents_content` takes from the frontend list: non-empty contents
      and non-empty strings, in order. */
  function FrontendTexts(docs: seq<FrontendDoc>): (r: seq<string>)
    ensures |r| <= |docs|
    ensures forall t :: t in r ==> t != ""
    decreases |docs|
  {
    if docs == [] then []
    else
      var pre := FrontendTexts(docs[..|docs| - 1]);
      match docs[|docs| - 1]
      case DictWithContent(c) => if Truthy(c) then pre + [c.value] else pre
      case TextDoc(t) => if t != "" then pre + [t] else pre
      case OtherDoc => pre
  }

  /** The texts of the files whose extraction succeeded, in order. */
  function ExtractedTexts(files: seq<Result<string, string>>): (r: seq<string>)
    ensures |r| <= |files|
    decreases |files|
  {
    if files == [] then []
    else
      var pre := ExtractedTexts(files[..|files| - 1]);
      match files[|files| - 1]
      case Ok(t) => pre + [t]
      case Err(_) => pre
  }

  /** A file whose extraction fails adds nothing, and one that succeeds adds its text. */
  lemma {:induction false} ExtractedTextsCount(files: seq<Result<string, string>>)
    ensures |ExtractedTexts(files)| == |set i | 0 <= i < |files| && files[i].Ok?|
    decreases |files|
  {
    if files != [] {
      var n := |files| - 1;
      ExtractedTextsCount(files[..n]);
      var before := set i | 0 <= i < n && files[..n][i].Ok?;
      var after := set i | 0 <= i < |files| && files[i].Ok?;
      assert before == set i | 0 <= i < n && files[i].Ok?;
      if files[n].Ok? {
        assert after == before + {n};
      } else {
        assert after == before;
      }
    }
  }

  /** The document fields of a synthesis request that `_get_documents_content` reads; an
      absent list and an empty one behave alike. `files` holds what extracting each file
      gives. */
  datatype DocumentSources = DocumentSources(
    documents: seq<FrontendDoc>,
    documentsContent: seq<string>,
    files: seq<Result<string, string>>)

  /** `_get_documents_content`: frontend documents, then `documents_content` as given,
      then the text of every file that could be read. */
  method GetDocumentsContent(src: DocumentSources) returns (documents: seq<string>)
    ensures documents == FrontendTexts(src.documents) + src.documentsContent + ExtractedTexts(src.files)
    ensures documents == [] <==> FrontendTexts(src.documents) == [] && src.documentsContent == []
                                 && ExtractedTexts(src.files) == []
  {
    documents := [];
    for i := 0 to |src.documents|
      invariant documents == FrontendTexts(src.documents[..i])
    {
      assert src.documents[..i + 1][..i] == src.documents[..i];
      match src.documents[i]
      case DictWithContent(c) =>
        if Truthy(c) {
          documents := documents + [c.value];
        }
      case TextDoc(t) =>
        if t != "" {
          documents := documents + [t];
        }
      case OtherDoc =>
    }
    assert src.documents[..|src.documents|] == src.documents;
    documents := documents + src.documentsContent;
    ghost var head := documents;
    for i := 0 to |src.files|
      invariant documents == head + ExtractedTexts(src.files[..i])
    {
      assert src.files[..i + 1][..i] == src.files[..i];
      match src.files[i]
      case Ok(t) =>
        documents := documents + [t];
      case Err(_) =>
    }
    assert src.files[..|src.files|] == src.files;
  }

  // ---------------------------------------------------------------------------
  // Synthesis
  // ---------------------------------------------------------------------------

  const NoDocumentsMessage := "❌ Erreur : Aucun document fourni"
  const NotConfiguredMessage := "❌ Gemini non configuré (GEMINI_API_KEY manquante)"
  /** A `ValueError` of the generation step is reported after this prefix, any other
      exception after `GenerationErrorPrefix`. */
  const ValidationErrorPrefix := "❌ Erreur de validation lors de la génération : "
  const GenerationErrorPrefix := "❌ Erreur lors de la génération : "
  const NoReplyMessage := ValidationErrorPrefix + "Réponse Gemini vide (None)"
  const InvalidReplyMessage := ValidationErrorPrefix + "Réponse Gemini invalide (pas d'attribut 'text')"
  const EmptySynthesisMessage := ValidationErrorPrefix + "Synthèse générée vide"
  const RagHeader := "\n\n--- JURISPRUDENCE PERTINENTE ---\n"

  /** The confidence of a generated synthesis: higher for a summary over 500 characters. */
  function SummaryConfidence(summary: string): (c: real)
    ensures ValidConfidence(c)
    ensures c == 0.85 <==> |summary| > 500
    ensures c == 0.70 <==> |summary| <= 500
  {
    if |summary| > 500 then 0.85 else 0.70
  }

  /** An error answer: the message is both summary and content, nothing is extracted and
      the confidence is zero. */
  function ErrorResponse(kind: SynthesisType, message: string): (r: SynthesisResponse)
    ensures r.confidence == 0.0 && r.keyPoints == [] && r.recommendations == []
    ensures r.summary == message && r.synthesizedContent == Some(message)
  {
    SynthesisResponse(None, kind, message, Some(message), [], [], 0.0)
  }

  /** The answer built from a non-empty generated text: the text itself as summary and
      content, with the key points and recommendations read from its lines. */
  method GeneratedResponse(kind: SynthesisType, summary: string) returns (r: SynthesisResponse)
    ensures r.summary == summary && r.synthesizedContent == Some(summary)
    ensures r.confidence == SummaryConfidence(summary)
    ensures r.keyPoints == Take(AllKeyPoints(Split(summary, '\n')), 10)
    ensures r.recommendations == Take(RecoScan(Split(summary, '\n')).1, 10)
  {
    var keyPoints := ExtractKeyPoints(summary);
    var recommendations := ExtractRecommendations(summary);
    r := SynthesisResponse(None, kind, summary, Some(summary), keyPoints, recommendations,
                           SummaryConfidence(summary));
  }

  /** The message of an exception raised by the generator, after the prefix of its kind. */
  function FailureMessage(message: string, valueError: bool): (m: string)
    ensures valueError ==> StartsWith(m, ValidationErrorPrefix) && m[|ValidationErrorPrefix|..] == message
    ensures !valueError ==> StartsWith(m, GenerationErrorPrefix) && m[|GenerationErrorPrefix|..] == message
  {
    var prefix := if valueError then ValidationErrorPrefix else GenerationErrorPrefix;
    assert (prefix + message)[..|prefix|] == prefix;
    prefix + message
  }

  /** `_generate_synthesis`. With no model configured the answer carries no content of its
      own, and `model_post_init` fills it with the summary. The error answers:
      - a blank generated text: `EmptySynthesisMessage`;
      - no reply: `NoReplyMessage`;
      - a reply without text: `InvalidReplyMessage`;
      - an exception: its message after the prefix of its kind. */
  method GenerateSynthesis(kind: SynthesisType, documents: seq<string>, modelAvailable: bool, reply: Generation)
    returns (r: SynthesisResponse)
    ensures ValidConfidence(r.confidence)
    ensures r.synthesizedContent == Some(r.summary)
    ensures !modelAvailable ==> r.summary == NotConfiguredMessage && r.confidence == 0.0
                                && r.keyPoints == [] && r.recommendations == []
    ensures modelAvailable && reply.Generated? && Strip(reply.text) != "" ==>
              && r.summary == Strip(reply.text)
              && r.confidence == SummaryConfidence(Strip(reply.text))
              && r.keyPoints == Take(AllKeyPoints(Split(Strip(reply.text), '\n')), 10)
              && r.recommendations == Take(RecoScan(Split(Strip(reply.text), '\n')).1, 10)
    ensures r.confidence > 0.0 <==> modelAvailable && reply.Generated? && Strip(reply.text) != ""
    ensures modelAvailable && reply.Generated? && Strip(reply.text) == "" ==> r == ErrorResponse(kind, EmptySynthesisMessage)
    ensures modelAvailable && reply.NoReply? ==> r == ErrorResponse(kind, NoReplyMessage)
    ensures modelAvailable && reply.NoText? ==> r == ErrorResponse(kind, InvalidReplyMessage)
    ensures modelAvailable && reply.GenerationFailed? ==>
              r == ErrorResponse(kind, FailureMessage(reply.message, reply.valueError))
  {
    if !modelAvailable {
      var built := NewSynthesisResponse(None, kind, NotConfiguredMessage, None, [], [], 0.0);
      return built.value;
    }
    match reply {
      case Generated(text) =>
        var summary := Strip(text);
        if summary == "" {
          return ErrorResponse(kind, EmptySynthesisMessage);
        }
        r := GeneratedResponse(kind, summary);
      case NoReply =>
        r := ErrorResponse(kind, NoReplyMessage);
      case NoText =>
        r := ErrorResponse(kind, InvalidReplyMessage);
      case GenerationFailed(message, valueError) =>
        r := ErrorResponse(kind, FailureMessage(message, valueError));
    }
  }

  /** `synthesize`: no document at all gives the error answer; otherwise the enrichment
      text, when asked for and a query is given, is appended as one more document, and
      the answer is that of `_generate_synthesis` on the documents. */
  method Synthesize(kind: SynthesisType, src: DocumentSources, enrichWithRag: bool, searchQuery: Option<string>,
                    ragContext: string, modelAvailable: bool, reply: Generation)
    returns (r: SynthesisResponse, documents: seq<string>)
    ensures var gathered := FrontendTexts(src.documents) + src.documentsContent + ExtractedTexts(src.files);
            && (gathered == [] ==> r == ErrorResponse(kind, NoDocumentsMessage) && documents == [])
            && (gathered != [] && enrichWithRag && Truthy(searchQuery) ==> documents == gathered + [RagHeader + ragContext])
            && (gathered != [] && !(enrichWithRag && Truthy(searchQuery)) ==> documents == gathered)
    ensures ValidConfidence(r.confidence)
    ensures r.synthesizedContent == Some(r.summary)
    ensures documents != [] && !modelAvailable ==>
              r.summary == NotConfiguredMessage && r.confidence == 0.0 && r.keyPoints == [] && r.recommendations == []
    ensures documents != [] && modelAvailable && reply.Generated? && Strip(reply.text) != "" ==>
              && r.summary == Strip(reply.text)
              && r.confidence == SummaryConfidence(Strip(reply.text))
              && r.keyPoints == Take(AllKeyPoints(Split(Strip(reply.text), '\n')), 10)
              && r.recommendations == Take(RecoScan(Split(Strip(reply.text), '\n')).1, 10)
    ensures documents != [] && modelAvailable && reply.Generated? && Strip(reply.text) == "" ==>
              r == ErrorResponse(kind, EmptySynthesisMessage)
    ensures documents != [] && modelAvailable && reply.NoReply? ==> r == ErrorResponse(kind, NoReplyMessage)
    ensures documents != [] && modelAvailable && reply.NoText? ==> r == ErrorResponse(kind, InvalidReplyMessage)
    ensures documents != [] && modelAvailable && reply.GenerationFailed? ==>
              r == ErrorResponse(kind, FailureMessage(reply.message, reply.valueError))
  {
    documents := GetDocumentsContent(src);
    if documents == [] {
      return ErrorResponse(kind, NoDocumentsMessage), documents;
    }
    if enrichWithRag && Truthy(searchQuery) {
      documents := documents + [RagHeader + ragContext];
    }
    r := GenerateSynthesis(kind, documents, modelAvailable, reply);
  }
}
