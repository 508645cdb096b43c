/**
 * The request and response records of the legal API (rag-juridique/api/models.py):
 * the enumerations, the field bounds Pydantic enforces when a record is built, and the
 * two `model_post_init` hooks. Building a record is a function returning `Err` with the
 * validation message where Pydantic raises.
 */
module ApiModels {
  import opened Wrappers
  import opened Strings

  // ---------------------------------------------------------------------------
  // Enumerations
  // ---------------------------------------------------------------------------

  /** Severity of a compliance issue. */
  datatype IssueSeverity = Low | Medium | High | Critical {
    function Value(): string {
      match this
      case Low => "low"
      case Medium => "medium"
      case High => "high"
      case Critical => "critical"
    }
  }

  const AllSeverities: seq<IssueSeverity> := [Low, Medium, High, Critical]

  /** Parsing an enumeration value, as Pydantic does for a string field of that type. */
  function SeverityFromValue(v: string): (r: Option<IssueSeverity>)
    ensures r.Some? ==> r.value.Value() == v
    ensures r.None? ==> forall s: IssueSeverity :: s.Value() != v
  {
    if v == "low" then Some(Low)
    else if v == "medium" then Some(Medium)
    else if v == "high" then Some(High)
    else if v == "critical" then Some(Critical)
    else None
  }

  /** There are exactly four severities, with four distinct values. */
  lemma SeverityEnumeration()
    ensures forall s: IssueSeverity :: s in AllSeverities
    ensures forall i, j :: 0 <= i < j < |AllSeverities| ==> AllSeverities[i].Value() != AllSeverities[j].Value()
    ensures |AllSeverities| == 4
    ensures forall s: IssueSeverity :: SeverityFromValue(s.Value()) == Some(s)
  {
    forall s: IssueSeverity ensures s in AllSeverities {
      match s
      case Low => assert AllSeverities[0] == s;
      case Medium => assert AllSeverities[1] == s;
      case High => assert AllSeverities[2] == s;
      case Critical => assert AllSeverities[3] == s;
    }
  }

  /** Legal state of an article in the corpus. */
  datatype DocumentStatus = Vigueur | Abroge | Modifie {
    function Value(): string {
      match this
      case Vigueur => "VIGUEUR"
      case Abroge => "ABROGE"
      case Modifie => "MODIFIE"
    }
  }

  const AllStatuses: seq<DocumentStatus> := [Vigueur, Abroge, Modifie]

  function StatusFromValue(v: string): (r: Option<DocumentStatus>)
    ensures r.Some? ==> r.value.Value() == v
    ensures r.None? ==> forall s: DocumentStatus :: s.Value() != v
  {
    if v == "VIGUEUR" then Some(Vigueur)
    else if v == "ABROGE" then Some(Abroge)
    else if v == "MODIFIE" then Some(Modifie)
    else None
  }

  /** There are exactly three statuses, with three distinct values. */
  lemma StatusEnumeration()
    ensures forall s: DocumentStatus :: s in AllStatuses
    ensures forall i, j :: 0 <= i < j < |AllStatuses| ==> AllStatuses[i].Value() != AllStatuses[j].Value()
    ensures |AllStatuses| == 3
    ensures forall s: DocumentStatus :: StatusFromValue(s.Value()) == Some(s)
  {
    forall s: DocumentStatus ensures s in AllStatuses {
      match s
      case Vigueur => assert AllStatuses[0] == s;
      case Abroge => assert AllStatuses[1] == s;
      case Modifie => assert AllStatuses[2] == s;
    }
  }

  // ---------------------------------------------------------------------------
  // Search
  // ---------------------------------------------------------------------------

  datatype SearchFilters = SearchFilters(
    codeId: Option<string>,
    etat: Option<DocumentStatus>,
    dateMin: Option<string>,
    dateMax: Option<string>)

  const NoFilters := SearchFilters(None, None, None, None)

  datatype SearchRequest = SearchRequest(
    query: string,
    filters: SearchFilters,
    pageSize: int,
    analyzeTrends: bool,
    includeMetadata: bool)

  /** `SearchRequest(...)`: the query has 3 to 500 characters and the page size is 1 to 100. */
  function NewSearchRequest(query: string, filters: SearchFilters, pageSize: int,
                            analyzeTrends: bool, includeMetadata: bool): (r: Result<SearchRequest, string>)
    ensures r.Ok? <==> 3 <= |query| <= 500 && 1 <= pageSize <= 100
    ensures r.Ok? ==> r.value == SearchRequest(query, filters, pageSize, analyzeTrends, includeMetadata)
  {
    if |query| < 3 then Err("query: String should have at least 3 characters")
    else if |query| > 500 then Err("query: String should have at most 500 characters")
    else if pageSize < 1 then Err("page_size: Input should be greater than or equal to 1")
    else if pageSize > 100 then Err("page_size: Input should be less than or equal to 100")
    else Ok(SearchRequest(query, filters, pageSize, analyzeTrends, includeMetadata))
  }

  /** The defaults: no filters, ten results, trends and metadata on. */
  lemma SearchRequestDefaults(query: string)
    requires 3 <= |query| <= 500
    ensures NewSearchRequest(query, NoFilters, 10, true, true).Ok?
    ensures NewSearchRequest(query, NoFilters, 10, true, true).value.pageSize == 10
  {
  }

  datatype TrendAnalysis = TrendAnalysis(
    successProbability: Option<real>,
    similarCasesCount: int,
    dominantJurisprudence: Option<string>,
    keyArguments: seq<string>,
    temporalEvolution: Option<map<string, string>>)

  /** `TrendAnalysis(...)`: a success probability, when given, lies in [0, 1]. */
  function NewTrendAnalysis(p: Option<real>, count: int, dominant: Option<string>,
                            args: seq<string>, evolution: Option<map<string, string>>): (r: Result<TrendAnalysis, string>)
    ensures r.Ok? <==> (p.Some? ==> 0.0 <= p.value <= 1.0)
    ensures r.Ok? ==> r.value == TrendAnalysis(p, count, dominant, args, evolution)
  {
    match p
    case Some(v) =>
      if v < 0.0 then Err("success_probability: Input should be greater than or equal to 0")
      else if v > 1.0 then Err("success_probability: Input should be less than or equal to 1")
      else Ok(TrendAnalysis(p, count, dominant, args, evolution))
    case None => Ok(TrendAnalysis(p, count, dominant, args, evolution))
  }

  // ---------------------------------------------------------------------------
  // Chat
  // ---------------------------------------------------------------------------

  datatype ChatRequest = ChatRequest(
    message: string,
    conversationId: Option<string>,
    useRag: bool,
    maxSources: int)

  /** `ChatRequest(...)`: the message has 1 to 2000 characters and at most 10 sources are asked for. */
  function NewChatRequest(message: string, conversationId: Option<string>, useRag: bool,
                          maxSources: int): (r: Result<ChatRequest, string>)
    ensures r.Ok? <==> 1 <= |message| <= 2000 && 0 <= maxSources <= 10
    ensures r.Ok? ==> r.value == ChatRequest(message, conversationId, useRag, maxSources)
  {
    if |message| < 1 then Err("message: String should have at least 1 character")
    else if |message| > 2000 then Err("message: String should have at most 2000 characters")
    else if maxSources < 0 then Err("max_sources: Input should be greater than or equal to 0")
    else if maxSources > 10 then Err("max_sources: Input should be less than or equal to 10")
    else Ok(ChatRequest(message, conversationId, useRag, maxSources))
  }

  /** A unit-interval confidence, as `ChatResponse`, `ActGenerationResponse` and
      `SynthesisResponse` constrain it. */
  predicate ValidConfidence(c: real) {
    0.0 <= c <= 1.0
  }

  // ---------------------------------------------------------------------------
  // Act generation
  // ---------------------------------------------------------------------------

  datatype ActType =
    | ContractSale | ContractWork | ContractService | LeaseCommercial | LeaseResidential
    | Assignment | Conclusions | Donation | Succession | Nda | Partnership | Mandate
    | PowerOfAttorney | CustomAct

  datatype DataInputFormat = TextData | JsonData | FormData | CsvData

  datatype OutputFormat = TextOutput | PdfOutput | DocxOutput | HtmlOutput

  datatype ActGenerationRequest = ActGenerationRequest(
    actType: ActType,
    templateContent: Option<string>,
    templateFile: Option<string>,
    clientData: string,
    clientDataFormat: DataInputFormat,
    outputFormat: OutputFormat,
    preserveFormatting: bool,
    customPrompt: Option<string>,
    customTemplateName: Option<string>)

  datatype ActGenerationResponse = ActGenerationResponse(
    actType: ActType,
    generatedAct: string,
    previewText: string,
    confidence: real,
    validationRequired: bool,
    outputFormat: OutputFormat,
    warnings: seq<string>)

  // ---------------------------------------------------------------------------
  // Synthesis
  // ---------------------------------------------------------------------------

  datatype SynthesisType = StrategicNote | TrendAnalysisNote | ClientReport | CaseSummary | ProceduralTimeline

  datatype SynthesisResponse = SynthesisResponse(
    synthesisId: Option<string>,
    synthesisType: SynthesisType,
    summary: string,
    synthesizedContent: Option<string>,
    keyPoints: seq<string>,
    recommendations: seq<string>,
    confidence: real)

  /** `SynthesisResponse(...)`: the confidence lies in [0, 1]; `model_post_init` copies
      `summary` into `synthesized_content` when the latter is left as None. */
  function NewSynthesisResponse(id: Option<string>, kind: SynthesisType, summary: string,
                                content: Option<string>, keyPoints: seq<string>,
                                recommendations: seq<string>, confidence: real): (r: Result<SynthesisResponse, string>)
    ensures r.Ok? <==> ValidConfidence(confidence)
    ensures r.Ok? ==> r.value.synthesizedContent.Some?
    ensures r.Ok? && content.None? ==> r.value.synthesizedContent == Some(summary)
    ensures r.Ok? && content.Some? ==> r.value.synthesizedContent == content
    ensures r.Ok? ==> r.value.summary == summary && r.value.keyPoints == keyPoints
                      && r.value.recommendations == recommendations && r.value.confidence == confidence
  {
    if !ValidConfidence(confidence) then Err("confidence: Input should be between 0 and 1")
    else
      var built := SynthesisResponse(id, kind, summary, content, keyPoints, recommendations, confidence);
      Ok(if built.synthesizedContent.None? then built.(synthesizedContent := Some(summary)) else built)
  }

  // ---------------------------------------------------------------------------
  // Audit
  // ---------------------------------------------------------------------------

  /** Python truthiness of an optional string: present and non-empty. */
  predicate Truthy(s: Option<string>) {
    s.Some? && s.value != ""
  }

  /** An audit request. Dates are integer timestamps. */
  datatype AuditRequest = AuditRequest(
    contractText: Option<string>,
    contractDate: Option<string>,
    deepAnalysis: bool,
    documentTitle: Option<string>,
    documentContent: Option<string>,
    documentFilePath: Option<string>,
    documentDate: Option<int>,
    checkLive: bool,
    detailedReport: bool)

  const NoContentError := "Vous devez fournir au moins un champ de contenu"

  /** `AuditRequest(...)`: `model_post_init` rejects a request in which none of
      `contract_text`, `document_content`, `document_file_path` is truthy. */
  function NewAuditRequest(req: AuditRequest): (r: Result<AuditRequest, string>)
    ensures r.Ok? <==> (req.contractText.Some? && req.contractText.value != "")
                       || (req.documentContent.Some? && req.documentContent.value != "")
                       || (req.documentFilePath.Some? && req.documentFilePath.value != "")
    ensures r.Ok? ==> r.value == req
  {
    var hasContent := Truthy(req.contractText) || Truthy(req.documentContent) || Truthy(req.documentFilePath);
    if !hasContent then Err(NoContentError) else Ok(req)
  }

  /** One compliance problem found by the audit. */
  datatype AuditIssue = AuditIssue(
    severity: IssueSeverity,
    issueType: string,
    articleReference: string,
    context: string,
    description: string,
    currentStatus: string,
    dateAbrogation: Option<string>,
    dateModification: Option<string>,
    recommendation: string)

  datatype AuditResponse = AuditResponse(
    documentTitle: string,
    auditDate: int,
    documentDate: Option<int>,
    totalReferences: int,
    validReferences: int,
    issues: seq<AuditIssue>,
    conformityScore: real,
    recommendations: seq<string>)

  /** `AuditResponse(...)`: the conformity score lies in [0, 100]. */
  function NewAuditResponse(title: string, auditDate: int, documentDate: Option<int>, total: int,
                            valid: int, issues: seq<AuditIssue>, score: real,
                            recommendations: seq<string>): (r: Result<AuditResponse, string>)
    ensures r.Ok? <==> 0.0 <= score <= 100.0
    ensures r.Ok? ==> r.value == AuditResponse(title, auditDate, documentDate, total, valid, issues, score, recommendations)
  {
    if score < 0.0 then Err("conformity_score: Input should be greater than or equal to 0")
    else if score > 100.0 then Err("conformity_score: Input should be less than or equal to 100")
    else Ok(AuditResponse(title, auditDate, documentDate, total, valid, issues, score, recommendations))
  }
}
