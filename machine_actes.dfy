/**
 * The act machine (rag-juridique/api/machine_actes.py): it takes a model act and the
 * client's data and has the language model write a new act in the same style. The
 * model here covers how the template is obtained and capped, how the client data is
 * laid out, the warnings and confidence attached to a generated act, the conversion to
 * the output format, and the preview.
 *
 * Text extraction from files, JSON parsing and the language model are parameters:
 * `extracted` is the text read from the template file (or the extraction error),
 * `parsed` the items of the client data when it parses as a JSON object, and
 * `generate` the model's reply for the act type, template, client data and custom prompt.
 */
module MachineActes {
  import opened Wrappers
  import opened Strings
  import opened ApiModels

  function Min(a: int, b: int): int {
    if a < b then a else b
  }

  // ---------------------------------------------------------------------------
  // Template
  // ---------------------------------------------------------------------------

  const MaxTemplateSize := 200000
  const TruncationMarker := "\n\n[... Template tronqué pour éviter dépassement de tokens ...]"

  /** A template longer than 200000 characters is cut there and marked as cut. */
  function CapTemplate(t: string): (r: string)
    ensures |t| <= MaxTemplateSize ==> r == t
    ensures |t| > MaxTemplateSize ==>
      |r| == MaxTemplateSize + |TruncationMarker| && r[..MaxTemplateSize] == t[..MaxTemplateSize]
      && EndsWith(r, TruncationMarker)
    ensures |r| <= MaxTemplateSize + |TruncationMarker|
  {
    if |t| > MaxTemplateSize then
      var r := t[..MaxTemplateSize] + TruncationMarker;
      assert r[..MaxTemplateSize] == t[..MaxTemplateSize];
      assert r[|r| - |TruncationMarker|..] == TruncationMarker;
      r
    else t
  }

  /** `_get_template_content`: the direct content when it is non-empty, else the text
      extracted from the file when a file is named (empty when extraction fails), else
      nothing; either way capped by `CapTemplate`. */
  function TemplateContent(request: ActGenerationRequest, extracted: Result<string, string>): (r: string)
    ensures Truthy(request.templateContent) ==> r == CapTemplate(request.templateContent.value)
    ensures !Truthy(request.templateContent) && Truthy(request.templateFile) && extracted.Ok? ==>
      r == CapTemplate(extracted.value)
    ensures !Truthy(request.templateContent) && Truthy(request.templateFile) && extracted.Err? ==> r == ""
    ensures !Truthy(request.templateContent) && !Truthy(request.templateFile) ==> r == ""
    ensures |r| <= MaxTemplateSize + |TruncationMarker|
  {
    if Truthy(request.templateContent) then CapTemplate(request.templateContent.value)
    else if Truthy(request.templateFile) then
      match extracted
      case Ok(text) => CapTemplate(text)
      case Err(_) => ""
    else ""
  }

  // ---------------------------------------------------------------------------
  // Client data
  // ---------------------------------------------------------------------------

  /** `"key: value"` for each pair, zipping the two lists up to the shorter one. */
  function KeyValueLines(keys: seq<string>, values: seq<string>): (lines: seq<string>)
    ensures |lines| == Min(|keys|, |values|)
    ensures forall i :: 0 <= i < |lines| ==> lines[i] == keys[i] + ": " + values[i]
  {
    seq(Min(|keys|, |values|), i requires 0 <= i < Min(|keys|, |values|) => keys[i] + ": " + values[i])
  }

  function Keys(items: seq<(string, string)>): (ks: seq<string>)
    ensures |ks| == |items| && forall i :: 0 <= i < |items| ==> ks[i] == items[i].0
  {
    seq(|items|, i requires 0 <= i < |items| => items[i].0)
  }

  function Values(items: seq<(string, string)>): (vs: seq<string>)
    ensures |vs| == |items| && forall i :: 0 <= i < |items| ==> vs[i] == items[i].1
  {
    seq(|items|, i requires 0 <= i < |items| => items[i].1)
  }

  function StripAll(xs: seq<string>): (ys: seq<string>)
    ensures |ys| == |xs| && forall i :: 0 <= i < |xs| ==> ys[i] == Strip(xs[i])
  {
    seq(|xs|, i requires 0 <= i < |xs| => Strip(xs[i]))
  }

  /** The lines of CSV client data, after stripping the whole text. */
  function CsvLines(data: string): seq<string> {
    Split(Strip(data), '\n')
  }

  /** The CSV rows: each trimmed header beside the trimmed value of the first data line. */
  function CsvRows(data: string): seq<string>
    requires |CsvLines(data)| > 1
  {
    var lines := CsvLines(data);
    KeyValueLines(StripAll(Split(lines[0], ',')), StripAll(Split(lines[1], ',')))
  }

  /** `_prepare_client_data`: JSON becomes one `key: value` line per item (the raw text
      when it does not parse as an object), CSV pairs the header line with the first data
      line (the raw text when there are fewer than two lines), anything else is kept. */
  function PrepareClientData(data: string, format: DataInputFormat, parsed: Option<seq<(string, string)>>): (r: string)
    ensures format == JsonData && parsed.Some? ==>
      r == Join(KeyValueLines(Keys(parsed.value), Values(parsed.value)), "\n")
    ensures format == JsonData && parsed.None? ==> r == data
    ensures format == CsvData && |CsvLines(data)| > 1 ==> r == Join(CsvRows(data), "\n")
    ensures format == CsvData && |CsvLines(data)| <= 1 ==> r == data
    ensures format == TextData || format == FormData ==> r == data
  {
    match format
    case JsonData =>
      (match parsed
       case Some(items) => Join(KeyValueLines(Keys(items), Values(items)), "\n")
       case None => data)
    case CsvData =>
      if |CsvLines(data)| > 1 then Join(CsvRows(data), "\n") else data
    case _ => data
  }

  /** Laid-out JSON data reads back as exactly one line per item, in order, when no key
      or value spans several lines. */
  lemma JsonOneLinePerItem(data: string, items: seq<(string, string)>)
    requires |items| >= 1
    requires forall i :: 0 <= i < |items| ==> '\n' !in items[i].0 && '\n' !in items[i].1
    ensures var lines := Split(PrepareClientData(data, JsonData, Some(items)), '\n');
      |lines| == |items|
      && forall i :: 0 <= i < |items| ==> lines[i] == items[i].0 + ": " + items[i].1
  {
    var lines := KeyValueLines(Keys(items), Values(items));
    forall i | 0 <= i < |lines| ensures '\n' !in lines[i] {
      assert lines[i] == items[i].0 + ": " + items[i].1;
    }
    JoinSplit(lines, '\n');
  }

  /** A character absent from a string is absent from every piece of its split. */
  lemma {:induction false} SplitKeepsAbsence(s: string, sep: char, c: char)
    requires c !in s
    decreases |s|
    ensures forall i :: 0 <= i < |Split(s, sep)| ==> c !in Split(s, sep)[i]
  {
    if s != [] {
      SplitKeepsAbsence(s[1..], sep, c);
    }
  }

  lemma StripKeepsCharAbsence(s: string, c: char)
    requires c !in s
    ensures c !in Strip(s)
  {
    var r := Strip(s);
    var lead := LeadingSpaces(s);
    assert forall i :: 0 <= i < |r| ==> r[i] == s[lead + i];
  }

  /** Laid-out CSV data reads back as one line per column present in both the header
      line and the first data line. */
  lemma CsvOneLinePerColumn(data: string)
    requires |CsvLines(data)| > 1
    requires |CsvRows(data)| >= 1
    ensures var lines := CsvLines(data);
      Split(PrepareClientData(data, CsvData, None), '\n') == CsvRows(data)
      && |CsvRows(data)| == Min(|Split(lines[0], ',')|, |Split(lines[1], ',')|)
  {
    var lines := CsvLines(data);
    var headers := Split(lines[0], ',');
    var values := Split(lines[1], ',');
    SplitKeepsAbsence(lines[0], ',', '\n');
    SplitKeepsAbsence(lines[1], ',', '\n');
    var rows := CsvRows(data);
    forall i | 0 <= i < |rows| ensures '\n' !in rows[i] {
      StripKeepsCharAbsence(headers[i], '\n');
      StripKeepsCharAbsence(values[i], '\n');
      assert rows[i] == Strip(headers[i]) + ": " + Strip(values[i]);
    }
    JoinSplit(rows, '\n');
  }

  // ---------------------------------------------------------------------------
  // Generation
  // ---------------------------------------------------------------------------

  const NotConfiguredAct := "\U{274C} Gemini non configuré (GEMINI_API_KEY manquante)"
  const MissingConfigWarning := "Configuration Gemini manquante"
  const GenerationErrorPrefix := "\U{274C} Erreur lors de la génération : "
  const ShortActWarning := "\U{26A0}\U{FE0F} Acte généré très court, vérification recommandée"
  const PlaceholderWarning := "\U{26A0}\U{FE0F} Variables non substituées détectées ([...])"
  const NoTemplateWarning := "\U{274C} Erreur : Aucun modèle fourni"

  /**
   * The warnings attached to a generated act: one when it is shorter than 100
   * characters, one when it still holds both '[' and ']' (a placeholder left unfilled),
   * nothing else, the short-act warning first.
   */
  predicate WarningRules(act: string, warnings: seq<string>) {
    && (forall w :: w in warnings ==> w == ShortActWarning || w == PlaceholderWarning)
    && (ShortActWarning in warnings <==> |act| < 100)
    && (PlaceholderWarning in warnings <==> '[' in act && ']' in act)
    && |warnings| <= 2
    && (|warnings| == 2 ==> warnings[0] == ShortActWarning && warnings[1] == PlaceholderWarning)
  }

  /** The rules leave no choice: they fix the list of warnings. */
  lemma WarningRulesDetermine(act: string, w1: seq<string>, w2: seq<string>)
    requires WarningRules(act, w1) && WarningRules(act, w2)
    ensures w1 == w2
  {
    assert ShortActWarning != PlaceholderWarning by {
      assert |ShortActWarning| != |PlaceholderWarning|;
    }
    if |w1| == 1 {
      assert w1[0] in w1;
    }
    if |w2| == 1 {
      assert w2[0] in w2;
    }
  }

  /** `_generate_with_ai`: without a model, a fixed notice with confidence 0 and one
      warning; with a reply, the stripped reply, its warnings, and confidence 0.90 when
      there is no warning, 0.75 otherwise; when generation fails, the error notice with
      confidence 0. */
  method GenerateWithAi(modelAvailable: bool, reply: Result<string, string>)
    returns (act: string, confidence: real, warnings: seq<string>)
    ensures ValidConfidence(confidence)
    ensures !modelAvailable ==> act == NotConfiguredAct && confidence == 0.0 && warnings == [MissingConfigWarning]
    ensures modelAvailable && reply.Ok? ==>
      act == Strip(reply.value) && WarningRules(act, warnings)
      && (confidence == 0.90 <==> warnings == []) && (warnings != [] ==> confidence == 0.75)
    ensures modelAvailable && reply.Err? ==>
      act == GenerationErrorPrefix + reply.error && confidence == 0.0 && warnings == ["Erreur: " + reply.error]
  {
    if !modelAvailable {
      return NotConfiguredAct, 0.0, [MissingConfigWarning];
    }
    match reply {
      case Err(e) =>
        return GenerationErrorPrefix + e, 0.0, ["Erreur: " + e];
      case Ok(text) =>
        act := Strip(text);
        warnings := [];
        if |act| < 100 {
          warnings := warnings + [ShortActWarning];
        }
        if '[' in act && ']' in act {
          warnings := warnings + [PlaceholderWarning];
        }
        assert ShortActWarning != PlaceholderWarning by {
          assert |ShortActWarning| != |PlaceholderWarning|;
        }
        confidence := if warnings == [] then 0.90 else 0.75;
    }
  }

  // ---------------------------------------------------------------------------
  // Output
  // ---------------------------------------------------------------------------

  const ParagraphBreak := "\n\n"
  const ParagraphSeparator := "</p><p>"
  const HtmlOpen := "<html><body><p>"
  const HtmlClose := "</p></body></html>"

  /** `_post_process`: HTML turns each blank-line break into a paragraph boundary inside
      one document; text, PDF and DOCX return the act unchanged. */
  function PostProcess(act: string, format: OutputFormat): (r: string)
    ensures format != HtmlOutput ==> r == act
    ensures format == HtmlOutput ==> StartsWith(r, HtmlOpen) && EndsWith(r, HtmlClose)
    ensures format == HtmlOutput && !Contains(act, ParagraphBreak) ==> r == HtmlOpen + act + HtmlClose
  {
    if format == HtmlOutput then
      var body := Replace(act, ParagraphBreak, ParagraphSeparator);
      var r := HtmlOpen + body + HtmlClose;
      assert r[..|HtmlOpen|] == HtmlOpen;
      assert r[|r| - |HtmlClose|..] == HtmlClose;
      r
    else act
  }

  /** The HTML document holds one paragraph more than there are blank-line breaks in
      the act: the pieces between breaks, joined by paragraph boundaries. */
  lemma HtmlParagraphs(act: string)
    ensures var paragraphs := SplitOn(act, ParagraphBreak);
      |paragraphs| == CountOccurrences(act, ParagraphBreak) + 1
      && PostProcess(act, HtmlOutput) == HtmlOpen + Join(paragraphs, ParagraphSeparator) + HtmlClose
  {
    SplitOnCount(act, ParagraphBreak);
  }

  /** The preview: nothing for an empty act, the act itself up to 500 characters, else
      its first 500 characters followed by "...". */
  function Preview(act: string): (p: string)
    ensures p == "" <==> act == ""
    ensures |act| <= 500 ==> p == act
    ensures |act| > 500 ==> |p| == 503 && p[..500] == act[..500] && EndsWith(p, "...")
  {
    if |act| > 0 then
      if |act| > 500 then
        var p := act[..500] + "...";
        assert p[..500] == act[..500] && p[500..] == "...";
        p
      else act
    else ""
  }

  /**
   * `generate`: without a template, an empty act with confidence 0 and one warning;
   * otherwise the act the model writes from the template and the laid-out client data,
   * converted to the output format, with its preview, confidence and warnings:
   * - no model: the not-configured notice, confidence 0 and the missing-configuration
   *   warning;
   * - a failed generation: the error notice, confidence 0 and the error as warning;
   * - a reply: the stripped reply with its warnings, and confidence 0.90 exactly when
   *   there is none, 0.75 otherwise.
   * Every act is flagged for validation.
   */
  method Generate(request: ActGenerationRequest, extracted: Result<string, string>,
                  parsed: Option<seq<(string, string)>>, modelAvailable: bool,
                  generate: (ActType, string, string, Option<string>) -> Result<string, string>)
    returns (resp: ActGenerationResponse)
    ensures resp.actType == request.actType && resp.outputFormat == request.outputFormat
    ensures resp.validationRequired
    ensures ValidConfidence(resp.confidence)
    ensures resp.previewText == Preview(resp.generatedAct)
    ensures TemplateContent(request, extracted) == "" ==>
      resp.generatedAct == "" && resp.confidence == 0.0 && resp.warnings == [NoTemplateWarning]
    ensures var template := TemplateContent(request, extracted);
      var clientData := PrepareClientData(request.clientData, request.clientDataFormat, parsed);
      var reply := generate(request.actType, template, clientData, request.customPrompt);
      var format := request.outputFormat;
      template != "" ==>
        && (!modelAvailable ==>
              && resp.generatedAct == PostProcess(NotConfiguredAct, format)
              && resp.confidence == 0.0 && resp.warnings == [MissingConfigWarning])
        && (modelAvailable && reply.Err? ==>
              && resp.generatedAct == PostProcess(GenerationErrorPrefix + reply.error, format)
              && resp.confidence == 0.0 && resp.warnings == ["Erreur: " + reply.error])
        && (modelAvailable && reply.Ok? ==>
              && resp.generatedAct == PostProcess(Strip(reply.value), format)
              && WarningRules(Strip(reply.value), resp.warnings)
              && (resp.confidence == 0.90 <==> resp.warnings == [])
              && (resp.warnings != [] ==> resp.confidence == 0.75))
  {
    var template := TemplateContent(request, extracted);
    if template == "" {
      resp := ActGenerationResponse(request.actType, "", "", 0.0, true, request.outputFormat, [NoTemplateWarning]);
      return;
    }
    var clientData := PrepareClientData(request.clientData, request.clientDataFormat, parsed);
    var act, confidence, warnings := GenerateWithAi(modelAvailable, generate(request.actType, template, clientData, request.customPrompt));
    var finalAct := PostProcess(act, request.outputFormat);
    resp := ActGenerationResponse(request.actType, finalAct, Preview(finalAct), confidence, true, request.outputFormat, warnings);
  }
}
