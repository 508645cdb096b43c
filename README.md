# A Dafny model of the jurilab legal platform's core logic

The repository is a platform that puts clients in touch with French lawyers. It has two
halves, and this project models the decision logic of both in Dafny, with the properties
that logic promises proved about it.

- **rag-juridique**, a Python legal retrieval-augmented generation backend:
  - the audit engine that finds legal citations in a contract, checks each one against
    the search index and scores the document (`AuditConformite`, the primary component);
  - the request and response models;
  - the strategy synthesis, the search post-processing ("super chercheur"), the
    lawyer chatbot's conversation store and the act generator;
  - the Vertex AI Search client's filter building and result extraction;
  - the download store with expiry and the PDF style analyser;
  - the ingestion checkpoint, the massive and LEGI-archive ingestion drivers, and the
    JSONL validator and fixer.
- **The TypeScript front end and its services**:
  - Google Calendar slot generation and event merging, the availability editor, and
    calendar synchronisation;
  - the document service's visibility rules, the profile templates and the style presets;
  - meeting transcripts;
  - the registration wizard, the "my appointments" page and the diligence timer;
  - the CSV-to-Firebase lawyer import script.

There is one Dafny module per source file. Shared modules provide Option/Result
(`wrappers.dfy`), list helpers (`lists.dfy`) and the Python/JavaScript string operations
the code relies on (`strings.dfy`).

Pure code is modelled as functions and lemmas. A loop is modelled as a method, proved
against the function that specifies it. Objects that keep state are modelled as classes:
- the conversation store;
- the checkpointer;
- the download store;
- the ingesters;
- the registration wizard;
- the template storage;
- the diligence tracker.

Everything outside the program is a parameter:
- the search index, the language model, Firebase and Firestore, the HTTP APIs, file
  reading and text extraction;
- the clock (an integer "now");
- `Math.random`, and the fresh ids it produces.

## Model

| member | source | states |
|---|---|---|
| ApiModels.SeverityFromValue | rag-juridique/api/models.py:481-486 | a string parses as a severity exactly when it is one of the four values, and parses back to the severity with that value |
| ApiModels.SeverityEnumeration | rag-juridique/api/models.py:481-486 | there are exactly four severities with four distinct values, and each value parses back to its severity |
| ApiModels.StatusFromValue | rag-juridique/api/models.py:37-41 | a string parses as a document status exactly when it is VIGUEUR, ABROGE or MODIFIE |
| ApiModels.StatusEnumeration | rag-juridique/api/models.py:37-41 | there are exactly three statuses with distinct values, each parsing back to itself |
| ApiModels.NewSearchRequest | rag-juridique/api/models.py:85-111 | a search request is accepted exactly when the query has 3 to 500 characters and the page size is 1 to 100, and is then kept as given |
| ApiModels.SearchRequestDefaults | rag-juridique/api/models.py:94-111 | with its defaults (no filters, ten results, trends and metadata on) a request with a valid query is accepted |
| ApiModels.NewTrendAnalysis | rag-juridique/api/models.py:131-155 | a trend analysis is accepted exactly when its success probability, if any, lies in [0, 1] |
| ApiModels.NewChatRequest | rag-juridique/api/models.py:208-230 | a chat request is accepted exactly when the message has 1 to 2000 characters and at most 10 sources (none below 0) are asked for |
| ApiModels.NewSynthesisResponse | rag-juridique/api/models.py:445-478 | a synthesis response is accepted exactly when the confidence lies in [0, 1]; synthesized_content is then always set, to summary when it was left out |
| ApiModels.NewAuditRequest | rag-juridique/api/models.py:489-539 | an audit request is accepted exactly when contract_text, document_content or document_file_path is non-empty |
| ApiModels.NewAuditResponse | rag-juridique/api/models.py:556-581 | an audit response is accepted exactly when the conformity score lies in [0, 100] |
| AuditConformite.Rank | rag-juridique/api/audit_conformite.py:204-240 | each recognizer has one place in the priority order in which the seven patterns are tried |
| AuditConformite.Context | rag-juridique/api/audit_conformite.py:445 | the context slice reaches at most 50 characters either side of the match and is stripped |
| AuditConformite.CommerceCodeIsLowerCase | rag-juridique/api/audit_conformite.py:475 | the default code name of the L.-notation is already lower-case, like every lower-cased code group |
| AuditConformite.Build | rag-juridique/api/audit_conformite.py:438-515 | the record built for a match has its recognizer's type, the match start as position, the matched text as full_text and the bounded context around it; the article number is the first captured group (article "1" for article_premier), article_plage keeps its last article (group 2) in article_num_fin and its code from group 3, article_alinea keeps its alinea (group 2), article_code, article_abrege and article_premier keep group 2 lower-cased as the code, "code de commerce" for the L.-notation, no code for alinea and simple |
| AuditConformite.CandidatesOfShape | rag-juridique/api/audit_conformite.py:438-515 | every record one recognizer produces has that normalised shape |
| AuditConformite.CandidatesOfKind | rag-juridique/api/audit_conformite.py:438-515 | every record one recognizer produces carries that recognizer's type |
| AuditConformite.CandidatesNormalised | rag-juridique/api/audit_conformite.py:437-515 | every record offered to add_reference, over all recognizers run so far, is normalised |
| AuditConformite.RankOfRecognizer | rag-juridique/api/audit_conformite.py:204-240 | the i-th recognizer tried has rank i |
| AuditConformite.CandidatesRanked | rag-juridique/api/audit_conformite.py:437-515 | records reach add_reference in recognizer order: ranks never decrease along the candidate list |
| AuditConformite.KeepFirstSubset | rag-juridique/api/audit_conformite.py:431-435 | add_reference only ever keeps records it was offered |
| AuditConformite.KeepFirstPositions | rag-juridique/api/audit_conformite.py:431-435 | the positions kept are exactly the positions offered: no offered position is lost |
| AuditConformite.KeepFirstDistinct | rag-juridique/api/audit_conformite.py:429-435 | the positions_seen guard keeps at most one record per start position |
| AuditConformite.KeepFirstIsFirst | rag-juridique/api/audit_conformite.py:431-435 | a kept record is the first record offered at its position |
| AuditConformite.InsertOrdered | rag-juridique/api/audit_conformite.py:518 | inserting a record with a new position into a list sorted by position keeps it strictly sorted |
| AuditConformite.SortFacts | rag-juridique/api/audit_conformite.py:518 | sorting by position is a permutation and, with distinct positions, gives strictly ascending positions |
| AuditConformite.SortPermutation | rag-juridique/api/audit_conformite.py:518 | sorting by position keeps every record as often as it occurs |
| AuditConformite.SortOrdered | rag-juridique/api/audit_conformite.py:518 | with distinct positions the sorted list has strictly ascending positions |
| AuditConformite.ExtractionProperties | rag-juridique/api/audit_conformite.py:421-520 | the references returned have distinct ascending positions, each is a normalised record some recognizer produced, every matched start offset is represented, and at a shared offset the earlier recognizer's record wins |
| AuditConformite.AddMatches | rag-juridique/api/audit_conformite.py:431-446 | the finditer loop of one recognizer leaves exactly the records add_reference keeps and their set of positions |
| AuditConformite.ExtractLegalReferences | rag-juridique/api/audit_conformite.py:421-520 | the method returns the deduplicated records sorted by position, strictly ascending and normalised |
| AuditConformite.AddAllRecognizers | rag-juridique/api/audit_conformite.py:437-515 | the seven loops together keep the first record at each position, in offering order |
| AuditConformite.CandidatesSkipEmpty | rag-juridique/api/audit_conformite.py:437-515 | recognizers that matched nothing contribute no record |
| AuditConformite.DedupByExactStart | rag-juridique/api/audit_conformite.py:429-435 | deduplication is by exact start only: an article_code match and an article_simple match at different starts both appear, in text order |
| AuditConformite.TwoCandidates | rag-juridique/api/audit_conformite.py:437-515 | with one article_code match and one article_simple match, add_reference is offered exactly those two records in that order |
| AuditConformite.TwoRecordsKept | rag-juridique/api/audit_conformite.py:431-518 | two records at different positions are both kept and come out in position order |
| AuditConformite.PrefixedCitationCountedTwice | rag-juridique/api/audit_conformite.py:236-237 | "l'article 1101 du Code civil" yields two references, because the optional "l'" moves article_simple's start two characters earlier |
| AuditConformite.VerifyReference | rag-juridique/api/audit_conformite.py:556-659 | the decision table: no hit gives a HIGH reference_not_found (status INCONNU), ABROGE gives a CRITICAL article_abroge with date_fin, MODIFIE gives article_modifie that is HIGH exactly when date_debut is after the document date and LOW otherwise, any other etat gives no issue, and a failing lookup gives a MEDIUM verification_error (status ERREUR); every issue quotes the reference's full_text and context; a repeal has status ABROGE and no modification date, an amendment status MODIFIE, date_debut as modification date and no repeal date; each kind carries its own description and recommendation, the failure's description holding the exception text and the HIGH amendment's recommendation the amendment day |
| AuditConformite.NotFoundDescription | rag-juridique/api/audit_conformite.py:587 | the description of a missing reference is "Référence introuvable : " followed by the citation |
| AuditConformite.FailureDescription | rag-juridique/api/audit_conformite.py:656 | the description of a failed lookup is "Impossible de vérifier la référence : " followed by the exception's text |
| AuditConformite.ArticleDescription | rag-juridique/api/audit_conformite.py:606-640 | "Article ", the article number, then what happened to it |
| AuditConformite.RepealedRecommendation | rag-juridique/api/audit_conformite.py:609 | the advice for a repeal names date_fin, or "date inconnue" when it is missing or empty |
| AuditConformite.AmendedAfterRecommendation | rag-juridique/api/audit_conformite.py:629 | the advice for an amendment after the document names the amendment day written day/month/year |
| AuditConformite.TallyIdentity | rag-juridique/api/audit_conformite.py:341-366 | every reference is counted either as valid or as exactly one issue |
| AuditConformite.FailureIsolated | rag-juridique/api/audit_conformite.py:576-659 | a lookup failing for one query turns only the references sending that query into verification_error issues and leaves every other verdict unchanged |
| AuditConformite.VerifyAll | rag-juridique/api/audit_conformite.py:341-361 | the loop collects each reference's issue in order and counts the rest as valid, so valid + issues == references |
| AuditConformite.ConformityScore | rag-juridique/api/audit_conformite.py:365-366 | the score is valid/total*100, 100 with no reference, and between 0 and 100 |
| AuditConformite.MarkerSurvivesStrip | rag-juridique/api/audit_conformite.py:734-738 | a line holding a marker character still holds it once stripped |
| AuditConformite.KeptLines | rag-juridique/api/audit_conformite.py:734-738 | at most one recommendation per line, and each is stripped, non-empty and a bullet or a line with a marker |
| AuditConformite.KeptLinesSpec | rag-juridique/api/audit_conformite.py:734-738 | the recommendations are the lines the filter accepts, each stripped, in the reply's order |
| AuditConformite.KeptLinesEmpty | rag-juridique/api/audit_conformite.py:734-746 | no recommendation is kept exactly when no line passes the filter |
| AuditConformite.GenerateRecommendations | rag-juridique/api/audit_conformite.py:661-761 | no issue gives the conformity line, no model gives the two default lines, an empty, missing or failed reply gives the two fallback lines; otherwise the filtered stripped lines, or the whole stripped reply exactly when no line qualifies |
| AuditConformite.ExtractDocumentDate | rag-juridique/api/audit_conformite.py:522-554 | the document date is the one given in the request, and none without it (the content patterns never produce a date) |
| AuditConformite.ValidatedRequestHasContent | rag-juridique/api/audit_conformite.py:267-279 | a request the model accepts never takes the "no content" exit |
| AuditConformite.AnalyseContent | rag-juridique/api/audit_conformite.py:320-387 | steps 2 to 6 on a non-blank text: the extracted references, their issues and valid count, the score and the recommendations; valid + issues == total and the score lies in [0, 100] |
| AuditConformite.Audit | rag-juridique/api/audit_conformite.py:244-419 | the response validates as an AuditResponse; the title defaults to "Document sans titre"; no content and no file gives score 100 and the no-content message; a failing file extraction gives score 0 and the error line; blank content gives score 100 and the empty-document message; otherwise the analysis of the content |
| AuditConformite.AuditText | rag-juridique/api/audit_conformite.py:306-403 | after the text is known: the blank-text exit or the analysis, with the tally identity and the score bound |
| SuperChercheur.BuildVertexFilters | rag-juridique/api/super_chercheur.py:95-121 | the filter expression is always empty: filtering is switched off whatever is asked for |
| SuperChercheur.ExtractHighlights | rag-juridique/api/super_chercheur.py:153-172 | nothing exactly for empty content; the whole content when it fits; else its first `max_length` characters and "..." |
| SuperChercheur.TransformOne | rag-juridique/api/super_chercheur.py:141-148 | one result with the hit's fields or their defaults, a missing score read as 0.0, metadata only when asked for, and the highlights of its content |
| SuperChercheur.TransformResults | rag-juridique/api/super_chercheur.py:123-151 | one result per raw hit, in the same order, with no metadata unless asked for |
| SuperChercheur.KeyArgsFacts | rag-juridique/api/super_chercheur.py:278-292 | the topics are pairwise distinct, each comes from a result's breadcrumb, and there are no more of them than results |
| SuperChercheur.ExtractKeyArguments | rag-juridique/api/super_chercheur.py:259-294 | only the first five results are read; the topics are distinct, at most five, each the last two breadcrumb levels of one of those results |
| SuperChercheur.DominantJurisprudence | rag-juridique/api/super_chercheur.py:296-325 | none exactly without results; otherwise the top result's title, followed by its jurisdiction and date exactly when both are known |
| SuperChercheur.YearCountsMeaning | rag-juridique/api/super_chercheur.py:341-347 | the histogram counts exactly the dated results of each year, and its key order lists each of its years once |
| SuperChercheur.NoYears | rag-juridique/api/super_chercheur.py:343-350 | there is no year exactly when no result is dated |
| SuperChercheur.CountYears | rag-juridique/api/super_chercheur.py:341-347 | the counting loop builds the histogram and its key order |
| SuperChercheur.PeakYear | rag-juridique/api/super_chercheur.py:358 | `max(counts, key=counts.get)` is a year of largest count, and the first such year in key order |
| SuperChercheur.AnalyzeTemporalEvolution | rag-juridique/api/super_chercheur.py:327-359 | empty exactly when no result is dated; otherwise the per-year counts, "stable" exactly with two years or fewer and "croissant" otherwise, and the first year of largest count |
| SyntheseStrategie.KeyPointOf | rag-juridique/api/synthese_strategie.py:417-428 | a line gives a key point only when, stripped, it opens with a bullet or a numbered marker (a first character `isdigit` accepts, the superscripts ¹²³ included) and its cleaned text is longer than ten characters, and the point is that text cut to 200 |
| SyntheseStrategie.KeyPointsComeFromPointLines | rag-juridique/api/synthese_strategie.py:416-428 | each key point is what one of the lines gives |
| SyntheseStrategie.ExtractKeyPoints | rag-juridique/api/synthese_strategie.py:403-430 | at most ten points, in line order, each of 11 to 200 characters and given by one of the text's lines |
| SyntheseStrategie.RecommendationOf | rag-juridique/api/synthese_strategie.py:464-468 | a kept recommendation has 11 to 200 characters |
| SyntheseStrategie.NoKeywordNothingKept | rag-juridique/api/synthese_strategie.py:446-468 | without a line naming a section keyword the section never opens and nothing is kept |
| SyntheseStrategie.RecoScanBounds | rag-juridique/api/synthese_strategie.py:448-468 | every recommendation the scan keeps has 11 to 200 characters |
| SyntheseStrategie.KeywordLineNotKept | rag-juridique/api/synthese_strategie.py:452-456 | a line naming a keyword opens the section and is never itself kept |
| SyntheseStrategie.ExtractRecommendations | rag-juridique/api/synthese_strategie.py:432-470 | the scan's recommendations cut to ten, each of 11 to 200 characters, and none at all when no line names a keyword |
| SyntheseStrategie.FrontendTexts | rag-juridique/api/synthese_strategie.py:194-204 | at most one text per frontend document, never an empty one |
| SyntheseStrategie.ExtractedTexts | rag-juridique/api/synthese_strategie.py:213-221 | at most one text per file |
| SyntheseStrategie.ExtractedTextsCount | rag-juridique/api/synthese_strategie.py:213-221 | exactly the files whose extraction succeeds give a text |
| SyntheseStrategie.GetDocumentsContent | rag-juridique/api/synthese_strategie.py:184-223 | the frontend texts, then `documents_content` as given, then the extracted texts, in that order; empty exactly when all three are |
| SyntheseStrategie.SummaryConfidence | rag-juridique/api/synthese_strategie.py:357 | 0.85 exactly for a summary over 500 characters, 0.70 exactly otherwise |
| SyntheseStrategie.ErrorResponse | rag-juridique/api/synthese_strategie.py:156-165 | the error message is summary and content, with no points, no recommendations and confidence 0 |
| SyntheseStrategie.GeneratedResponse | rag-juridique/api/synthese_strategie.py:347-368 | the generated text is summary and content, with its confidence, key points and recommendations |
| SyntheseStrategie.GenerateSynthesis | rag-juridique/api/synthese_strategie.py:255-401 | without a model the not-configured notice with confidence 0; with a non-empty reply the generated answer; the confidence is positive exactly in that case; a `None` reply, a reply without text and a blank text give their validation error summaries, and a raised exception gives the validation or generation error summary carrying its message |
| SyntheseStrategie.FailureMessage | rag-juridique/api/synthese_strategie.py:370-400 | a `ValueError` is reported after the validation-error prefix, any other exception after the generation-error prefix, each followed by the exception's own text |
| SyntheseStrategie.Synthesize | rag-juridique/api/synthese_strategie.py:139-182 | no document gives the no-document error; otherwise the enrichment text is appended as one more document exactly when asked for with a query, and the answer is the generation's: the not-configured notice with confidence 0, the generated summary with its 0.85/0.70 confidence, key points and recommendations, or the validation and generation error summaries |
| ChatbotAvocat.LastMessages | rag-juridique/api/chatbot_avocat.py:72-86 | Python's history[-n:]: the last min(n, length) messages for n > 0, the whole history for n = 0, and always a suffix of the history |
| ChatbotAvocat.WindowEndsWithLatest | rag-juridique/api/chatbot_avocat.py:139-153 | the window read after appending a message ends with that message, keeps the order of the messages before it, and holds at most n messages |
| ChatbotAvocat.ConversationManager.constructor | rag-juridique/api/chatbot_avocat.py:36-39 | a new manager holds no conversation |
| ChatbotAvocat.ConversationManager.CreateConversation | rag-juridique/api/chatbot_avocat.py:41-51 | the fresh id is registered with an empty history and nothing else changes |
| ChatbotAvocat.ConversationManager.AddMessage | rag-juridique/api/chatbot_avocat.py:53-70 | a missing conversation is created, exactly one message is appended at its end, and no other conversation changes |
| ChatbotAvocat.ConversationManager.GetHistory | rag-juridique/api/chatbot_avocat.py:72-86 | an unknown id gives no message; a known id gives the last min(n, length) messages in order, the whole history for n = 0 |
| ChatbotAvocat.ConversationManager.ClearConversation | rag-juridique/api/chatbot_avocat.py:88-92 | the id is forgotten and nothing else changes; clearing an absent id changes nothing, so clearing is idempotent |
| ChatbotAvocat.SourceOfFacts | rag-juridique/api/chatbot_avocat.py:199-216 | a hit whose lower-cased title mentions "article" becomes a code source, else case law; the text is the content cut to 300 characters followed by "..."; a missing score counts as 0 |
| ChatbotAvocat.SourceBlock | rag-juridique/api/chatbot_avocat.py:210-214 | the block of the i-th hit starts with "[Source i] " |
| ChatbotAvocat.SourceBlocks | rag-juridique/api/chatbot_avocat.py:199-216 | one context block per hit, numbered from 1, in order |
| ChatbotAvocat.SourcesOf | rag-juridique/api/chatbot_avocat.py:192-227 | a failing search gives no source; otherwise one source per hit, in order |
| ChatbotAvocat.ContextOf | rag-juridique/api/chatbot_avocat.py:192-227 | the context is empty exactly when the search failed or found nothing |
| ChatbotAvocat.SourcesSnoc | rag-juridique/api/chatbot_avocat.py:199-216 | one more hit adds its source and its block at the end |
| ChatbotAvocat.SourcesOfSnoc | rag-juridique/api/chatbot_avocat.py:199-216 | one more hit adds its source at the end |
| ChatbotAvocat.SourceBlocksSnoc | rag-juridique/api/chatbot_avocat.py:199-216 | one more hit adds its numbered block at the end |
| ChatbotAvocat.RetrieveSources | rag-juridique/api/chatbot_avocat.py:177-227 | the loop returns the sources of the hits and the context their blocks make, and nothing when the search fails |
| ChatbotAvocat.ReplyConfidence | rag-juridique/api/chatbot_avocat.py:330-339 | a reply saying "je ne sais pas" or "insuffisant" gets 0.4, otherwise one mentioning both "sources" and "article" 0.95, otherwise 0.85 |
| ChatbotAvocat.BetweenBounds | rag-juridique/api/chatbot_avocat.py:369-370 | the extracted section runs into neither the closing nor the opening marker |
| ChatbotAvocat.SecondPieceClean | rag-juridique/api/chatbot_avocat.py:369 | the piece after the first opening marker holds no opening marker |
| ChatbotAvocat.FirstPieceClean | rag-juridique/api/chatbot_avocat.py:370 | the stripped piece before the first closing marker holds no closing marker, nor an opening one when there was none |
| ChatbotAvocat.SourcesSectionBounds | rag-juridique/api/chatbot_avocat.py:367-370 | the sources section stops before the question and holds no second sources header |
| ChatbotAvocat.FallbackFromSources | rag-juridique/api/chatbot_avocat.py:357-385 | without a sources header the fixed "cannot format" line; otherwise a text announcing the number of "[Source" tags in the section and showing its first 800 characters |
| ChatbotAvocat.GenerateResponse | rag-juridique/api/chatbot_avocat.py:295-355 | no model gives the fixed notice with confidence 0 (and only then 0); a reply is scored by the keyword rule; a failure gives the fallback from the sources (0.6) when the prompt carries them, else the fixed apology (0.3) |
| ChatbotAvocat.SuggestionRulesDetermine | rag-juridique/api/chatbot_avocat.py:398-423 | the keyword rules fix the suggestions completely, and there are one to three of them |
| ChatbotAvocat.GenerateSuggestions | rag-juridique/api/chatbot_avocat.py:387-423 | contract talk in the question or answer adds two actions, procedure talk in the question two, conformity talk one, the two general ones when none matched, and the first three are kept |
| ChatbotAvocat.Chat | rag-juridique/api/chatbot_avocat.py:126-175 | the conversation is the request's id or a fresh one; it gains exactly the user's message then the answer; the 5-message window read ends with the user's message; the response carries the sources, the answer, its confidence and the suggestions |
| ChatbotAvocat.CloseTurn | rag-juridique/api/chatbot_avocat.py:155-175 | the answer is generated from the window and appended to the conversation, and nothing else changes |
| ChatbotAvocat.OpenTurn | rag-juridique/api/chatbot_avocat.py:139-152 | the conversation is picked or created, gains the user's message, and the window of at most 5 messages ending with it is read |
| ChatbotAvocat.Respond | rag-juridique/api/chatbot_avocat.py:144-171 | the response for a window: the sources when asked, the generated answer and confidence, and one to three suggestions |
| MachineActes.CapTemplate | rag-juridique/api/machine_actes.py:190-198 | a template of at most 200000 characters is kept whole; a longer one keeps exactly its first 200000 characters followed by the truncation notice |
| MachineActes.TemplateContent | rag-juridique/api/machine_actes.py:183-212 | the direct content when non-empty, else the extracted file text when a file is named (empty when extraction fails), else nothing, always capped |
| MachineActes.KeyValueLines | rag-juridique/api/machine_actes.py:229 | one `key: value` line per pair, up to the shorter list |
| MachineActes.Keys | rag-juridique/api/machine_actes.py:229 | the keys of the parsed items, in order |
| MachineActes.Values | rag-juridique/api/machine_actes.py:229 | the values of the parsed items, in order |
| MachineActes.StripAll | rag-juridique/api/machine_actes.py:242 | each piece stripped, in order |
| MachineActes.PrepareClientData | rag-juridique/api/machine_actes.py:214-246 | JSON becomes one `key: value` line per item (the raw text when it does not parse), CSV pairs the header line with the first data line (the raw text with fewer than two lines), text and form data are kept |
| MachineActes.JsonOneLinePerItem | rag-juridique/api/machine_actes.py:224-230 | laid-out JSON data reads back as exactly one `key: value` line per item, in order, when no key or value spans lines |
| MachineActes.SplitKeepsAbsence | rag-juridique/api/machine_actes.py:238-241 | a character absent from a text is absent from every piece of its split |
| MachineActes.StripKeepsCharAbsence | rag-juridique/api/machine_actes.py:242 | stripping adds no character |
| MachineActes.CsvOneLinePerColumn | rag-juridique/api/machine_actes.py:236-243 | laid-out CSV data reads back as one line per column present in both the header and the first data line |
| MachineActes.WarningRulesDetermine | rag-juridique/api/machine_actes.py:295-299 | the warning rules fix the warnings: the short-act one when under 100 characters, the placeholder one when both brackets remain, in that order |
| MachineActes.GenerateWithAi | rag-juridique/api/machine_actes.py:248-312 | without a model a fixed notice with confidence 0; with a reply its stripped text and warnings, confidence 0.90 exactly without warnings and 0.75 otherwise; on failure the error notice with confidence 0 |
| MachineActes.PostProcess | rag-juridique/api/machine_actes.py:314-345 | HTML wraps the act in one document, blank-line breaks becoming paragraph boundaries; any other format returns the act unchanged |
| MachineActes.HtmlParagraphs | rag-juridique/api/machine_actes.py:335-339 | the HTML document holds one paragraph more than the act has blank-line breaks, the pieces between them in order |
| MachineActes.Preview | rag-juridique/api/machine_actes.py:164-167 | empty exactly for an empty act; the act itself up to 500 characters; otherwise its first 500 characters and "..." |
| MachineActes.Generate | rag-juridique/api/machine_actes.py:116-181 | no template gives an empty act, confidence 0 and one warning; without a model the not-configured act with confidence 0 and the configuration warning; a failed generation the error act with confidence 0 and the error as its only warning; a reply its stripped text post-processed, the warnings the rules give for it, and confidence 0.90 exactly when there is no warning, 0.75 otherwise; the type and format are echoed and validation is always required |
| Checkpointing.ErrorRate | rag-juridique/ingestion/checkpointer.py:170-172 | the error rate is errors/processed*100 when something was processed, 0 otherwise, and lies in [0, 100] when errors do not exceed processed |
| Checkpointing.Checkpointer.constructor | rag-juridique/ingestion/checkpointer.py:35-42 | a checkpointer keeps its identifier and its checkpoint file |
| Checkpointing.Checkpointer.InitialState | rag-juridique/ingestion/checkpointer.py:183-194 | a fresh run has no last article, zero counts, is not completed, has no metadata, and is stamped with the current time |
| Checkpointing.Checkpointer.Load | rag-juridique/ingestion/checkpointer.py:44-82 | a readable checkpoint is returned as saved; a missing or corrupt one gives the initial state |
| Checkpointing.Checkpointer.Save | rag-juridique/ingestion/checkpointer.py:84-139 | the fields given overwrite the loaded state, the others are kept, completed is always set to its argument, the metadata is merged with new keys winning, and lastUpdated is stamped; a failed write leaves the file as it was |
| Checkpointing.Checkpointer.MarkCompleted | rag-juridique/ingestion/checkpointer.py:141-144 | the run is marked completed and the counters, resume point and metadata are unchanged |
| Checkpointing.Checkpointer.Reset | rag-juridique/ingestion/checkpointer.py:146-150 | the checkpoint is deleted, so every later load gives the initial state |
| Checkpointing.Checkpointer.ProgressOf | rag-juridique/ingestion/checkpointer.py:152-181 | the progress reports the loaded counters, completion and resume point, the time since the start, and an error rate in [0, 100] |
| MassiveIngestion.FindCode | rag-juridique/ingestion/ingestion_massive.py:125-129 | a code found in the table carries the key asked for, and none is found exactly when no entry has that key |
| MassiveIngestion.InsertByPriority | rag-juridique/ingestion/ingestion_massive.py:133-136 | inserting into a list ordered by priority keeps it ordered and adds exactly the one entry |
| MassiveIngestion.ConsByPriority | rag-juridique/ingestion/ingestion_massive.py:133-136 | an entry whose priority is no later than the head of an ordered list can go in front of it |
| MassiveIngestion.SortByPriority | rag-juridique/ingestion/ingestion_massive.py:133-136 | `sorted(CODES.items(), key=priority)` is ordered by priority and a permutation of the table |
| MassiveIngestion.CreateArticleFacts | rag-juridique/ingestion/ingestion_massive.py:617-670 | the record's title is "Article <num>"; an empty breadcrumb becomes "<code name> > Article <num>", so it is never empty; a missing end date becomes ""; the other fields are copied |
| MassiveIngestion.PyTake | rag-juridique/ingestion/ingestion_massive.py:311 | `s[:n]` is a prefix of `s` of length `min(n, len(s))` for `n >= 0` |
| MassiveIngestion.PyDrop | rag-juridique/ingestion/ingestion_massive.py:307 | `s[n:]` drops exactly the first `n` elements |
| MassiveIngestion.DilaWindow | rag-juridique/ingestion/ingestion_massive.py:304-311 | the first `start_from` articles are dropped and, under a positive limit, the rest is cut to that many, element for element |
| MassiveIngestion.ArticlesFrom | rag-juridique/ingestion/ingestion_massive.py:314-327 | one record per downloaded article |
| MassiveIngestion.ArticlesFromEach | rag-juridique/ingestion/ingestion_massive.py:315-327 | record `i` is built from article `i`, with the defaults of missing fields |
| MassiveIngestion.TryDatagouv | rag-juridique/ingestion/ingestion_massive.py:277-369 | the DILA client is asked for `max_articles + start_from` articles under a limit; a failed download gives nothing, otherwise the records of the window |
| MassiveIngestion.RecordsOf | rag-juridique/ingestion/ingestion_massive.py:314-327 | the conversion loop yields exactly the records of the window, in order |
| MassiveIngestion.EnrichedIdsDiffer | rag-juridique/ingestion/ingestion_massive.py:603 | `{id}_ENRICHED_{idx:06d}` gives different ids for different indexes |
| MassiveIngestion.EssentialArticles | rag-juridique/ingestion/ingestion_massive.py:599-612 | one record per essential entry |
| MassiveIngestion.EssentialArticlesEach | rag-juridique/ingestion/ingestion_massive.py:600-612 | record `i` is built from entry `i` under the id of index `i` |
| MassiveIngestion.EssentialIdsDistinct | rag-juridique/ingestion/ingestion_massive.py:600-612 | the essential records never share an id |
| MassiveIngestion.GetEssentialArticlesCivil | rag-juridique/ingestion/ingestion_massive.py:468-615 | the essential articles, cut to `max_articles` when that limit is smaller than the list, each under the id of its index; never more than a positive limit |
| MassiveIngestion.EssentialRecords | rag-juridique/ingestion/ingestion_massive.py:599-612 | the loop yields exactly the records of the kept entries |
| MassiveIngestion.TryGenerateEnriched | rag-juridique/ingestion/ingestion_massive.py:448-466 | only the civil code has generated articles, no more than the essential list; any other code gets none |
| MassiveIngestion.FirstYield | rag-juridique/ingestion/ingestion_massive.py:193-217 | the strategy chosen is the first one that yields articles, and none is chosen when none does |
| MassiveIngestion.FailuresAtMost | rag-juridique/ingestion/ingestion_massive.py:140-150 | there are never more failed codes than codes |
| MassiveIngestion.MassiveIngester.constructor | rag-juridique/ingestion/ingestion_massive.py:86-111 | the ingester keeps the code name and limit and starts with every counter at 0 |
| MassiveIngestion.MassiveIngester.IngestCode | rag-juridique/ingestion/ingestion_massive.py:167-217 | strategies are tried in order until one yields articles, whose number is added to the total; success iff one did |
| MassiveIngestion.MassiveIngester.IngestAll | rag-juridique/ingestion/ingestion_massive.py:140-153 | every code counts as processed, each whose strategies all fail counts as an error, and the total grows by the articles ingested |
| MassiveIngestion.MassiveIngester.Run | rag-juridique/ingestion/ingestion_massive.py:120-165 | a code name not in the table gives false and changes nothing; a known one ingests that code alone; no name ingests every code by priority and succeeds |
| JsonlFix.FixClassOf | rag-juridique/fix_missing_content.py:30-62 | a line is skipped iff blank, and kept iff it decodes to an object whose content is a non-blank string and whose id is truthy |
| JsonlFix.FirstAbortSpec | rag-juridique/fix_missing_content.py:37-74 | no line before the first abort aborts, and the line there does |
| JsonlFix.KeptDocsValid | rag-juridique/fix_missing_content.py:40-57 | every kept document is an object with a non-blank string content and a truthy id |
| JsonlFix.KeptDocsCount | rag-juridique/fix_missing_content.py:55-57 | exactly the kept lines give a document |
| JsonlFix.FixCountsAddUp | rag-juridique/fix_missing_content.py:30-62 | without an abort, every line is skipped, kept or removed |
| JsonlFix.FixStatsOf | rag-juridique/fix_missing_content.py:19-74 | an unreadable file counts nothing; otherwise the total is the kept plus the removed lines, plus the aborting line when there is one |
| JsonlFix.FixStep | rag-juridique/fix_missing_content.py:30-62 | one more line raises the kept or removed counter by its class and adds its document when kept |
| JsonlFix.AbortsAt | rag-juridique/fix_missing_content.py:41 | an aborting line with nothing aborting before it is the first abort |
| JsonlFix.NoAbortBefore | rag-juridique/fix_missing_content.py:41 | a non-aborting line with nothing aborting before it lies before the first abort |
| JsonlFix.FixLine | rag-juridique/fix_missing_content.py:31-62 | the checks on one line, in the source's order, give the line's class |
| JsonlFix.NullContentAbortsFile | rag-juridique/fix_missing_content.py:41-74 | a line whose content is JSON `null` stops the file at or before it, so nothing is written for that file |
| JsonlFix.FixFile | rag-juridique/fix_missing_content.py:12-74 | the kept documents are those of the lines before the first abort, in order, with the statistics; the output is written only when the file was read to the end and kept a document |
| JsonlFix.SumFixAddsUp | rag-juridique/fix_missing_content.py:94-108 | when no file aborts, the summed total is the summed kept plus the summed removed |
| JsonlFix.SumFixStep | rag-juridique/fix_missing_content.py:100-108 | one more file adds its own statistics to the sums |
| JsonlFix.WrittenFlags | rag-juridique/fix_missing_content.py:100-104 | one written-or-not flag per file |
| JsonlFix.WrittenFlagsSpec | rag-juridique/fix_missing_content.py:100-104 | the flag of each file says whether its fix writes output |
| JsonlFix.WrittenFlagsStep | rag-juridique/fix_missing_content.py:100-104 | one more file adds its own flag |
| JsonlFix.FixAll | rag-juridique/fix_missing_content.py:77-133 | every file is fixed in turn; the totals are the sums of the per-file statistics, and each file's output is written exactly when its fix writes it |
| JsonlValidation.Classify | rag-juridique/validate_all_fixed_files.py:27-61 | a line is blank iff it strips to nothing; a valid line is an object with a truthy id and a non-blank content; a line missing its content has a truthy id |
| JsonlValidation.IdCheckedFirst | rag-juridique/validate_all_fixed_files.py:37-50 | a line missing both its id and its content counts only as missing its id |
| JsonlValidation.BlankContentIsMissing | rag-juridique/validate_all_fixed_files.py:44-50 | a whitespace-only content counts as missing even with an id |
| JsonlValidation.CountsAddUp | rag-juridique/validate_all_fixed_files.py:27-61 | each invalid line has exactly one reason, every counted line is valid or invalid, and every line is counted or blank |
| JsonlValidation.Validation | rag-juridique/validate_all_fixed_files.py:13-66 | the total is the valid plus the invalid lines, the invalid ones include every missing id, missing content and JSON error, an unreadable file is flagged, and counted plus blank lines make the file |
| JsonlValidation.CountsStep | rag-juridique/validate_all_fixed_files.py:27-61 | one more line raises exactly the counters of its class |
| JsonlValidation.ValidateFile | rag-juridique/validate_all_fixed_files.py:13-66 | the line loop produces the file's statistics |
| JsonlValidation.SumsStep | rag-juridique/validate_all_fixed_files.py:98-102 | one more file adds its own counts to the sums |
| JsonlValidation.SumsAgree | rag-juridique/validate_all_fixed_files.py:98-134 | the summed total is the summed valid plus invalid lines, and no line is invalid exactly when every file is clean |
| JsonlValidation.SumsAddUp | rag-juridique/validate_all_fixed_files.py:98-102 | the summed total is the summed valid plus invalid lines |
| JsonlValidation.NoInvalidIffClean | rag-juridique/validate_all_fixed_files.py:98-109 | no invalid line over all files exactly when every file is clean |
| JsonlValidation.ValidateAll | rag-juridique/validate_all_fixed_files.py:69-150 | exit code 0 exactly when the directory exists, holds files and every file is clean, 1 otherwise; the totals are the sums, and no file has errors exactly when the exit code is 0 |
| LegiExtraction.NamesOfDistinct | rag-juridique/ingestion/ingest_from_legi_extracted.py:69-71 | the keys of `by_name` list no name twice |
| LegiExtraction.NamesOfMembers | rag-juridique/ingestion/ingest_from_legi_extracted.py:69-71 | the keys are exactly the names of the paths, and each key has a non-empty group |
| LegiExtraction.GroupMembers | rag-juridique/ingestion/ingest_from_legi_extracted.py:69-71 | the group of a name holds exactly the paths of that name |
| LegiExtraction.Longest | rag-juridique/ingestion/ingest_from_legi_extracted.py:74 | `max(dirs, key=len(str(x)))` is one of the paths, at least as long as every other, and the first one when the first is as long |
| LegiExtraction.LongestPerName | rag-juridique/ingestion/ingest_from_legi_extracted.py:74 | one path per name |
| LegiExtraction.LongestPerNameEach | rag-juridique/ingestion/ingest_from_legi_extracted.py:74 | the path kept for each name is the longest of that name's group |
| LegiExtraction.DeduplicatedEach | rag-juridique/ingestion/ingest_from_legi_extracted.py:67-76 | the deduplicated list has one path per name, in first-seen order, each an input of that name as long as any other of the same name |
| LegiExtraction.DeduplicatedKeepsLongest | rag-juridique/ingestion/ingest_from_legi_extracted.py:67-76 | deduplication keeps exactly one input path per directory name, covers every name, and keeps the deepest path of each |
| LegiExtraction.GroupingStep | rag-juridique/ingestion/ingest_from_legi_extracted.py:70-71 | one more path adds its name when new and joins its own group |
| LegiExtraction.KeepLongest | rag-juridique/ingestion/ingest_from_legi_extracted.py:67-76 | the grouping loop and the `max` pass produce the deduplicated list |
| LegiExtraction.GroupByName | rag-juridique/ingestion/ingest_from_legi_extracted.py:69-71 | the grouping loop yields the names in first-seen order and each name's paths |
| LegiExtraction.GroupsStep | rag-juridique/ingestion/ingest_from_legi_extracted.py:70-71 | adding one path to the grouping of the paths before it groups one more path |
| LegiExtraction.LongestOfGroups | rag-juridique/ingestion/ingest_from_legi_extracted.py:74 | the longest path of each group, in key order |
| LegiExtraction.CodeDirsAmong | rag-juridique/ingestion/ingest_from_legi_extracted.py:62-64 | exactly the entries that are directories named `LEGITEXT…`, in order |
| LegiExtraction.Shallow | rag-juridique/ingestion/ingest_from_legi_extracted.py:110-112 | exactly the entries at most 10 levels below the root |
| LegiExtraction.CodeDirectories | rag-juridique/ingestion/ingest_from_legi_extracted.py:38-133 | a missing root gives nothing, and every directory found is a directory named `LEGITEXT…` |
| LegiExtraction.CodeDirectoriesFromWalkDistinct | rag-juridique/ingestion/ingest_from_legi_extracted.py:56-76 | when the LEGI/TEXT walk finds code directories, the result has one directory per name |
| LegiExtraction.FindCodeDirectories | rag-juridique/ingestion/ingest_from_legi_extracted.py:38-133 | the method, with its deduplication loops, returns the code directories |
| LegiExtraction.Pieces | rag-juridique/ingestion/ingest_from_legi_extracted.py:164 | piece `j` is characters `2j` and `2j+1` of the number |
| LegiExtraction.PiecesConcat | rag-juridique/ingestion/ingest_from_legi_extracted.py:164 | the pieces put back together are the number's first `2k` characters |
| LegiExtraction.DirectPath | rag-juridique/ingestion/ingest_from_legi_extracted.py:159-168 | the direct path is the root, LEGI, TEXT, five two-character levels spelling the first ten digits, then the id |
| LegiExtraction.BuildDirectPath | rag-juridique/ingestion/ingest_from_legi_extracted.py:159-168 | a path is built exactly when the id starts with `LEGITEXT` and has ten digits or more, and it is the direct path |
| LegiExtraction.ParsedFromIsPrefix | rag-juridique/ingestion/ingest_from_legi_extracted.py:209-219 | without a limit every article is kept in order; with a positive limit the first `max_articles` of them |
| LegiExtraction.ParseArticles | rag-juridique/ingestion/ingest_from_legi_extracted.py:209-219 | the parsing loop gives all articles in file order, cut to a positive limit |
| LegiExtraction.CodeName | rag-juridique/ingestion/ingest_from_legi_extracted.py:226 | `CODE_MAPPING.get(code_id, code_id)`: the id itself when unmapped, and a different name only from the mapping |
| LegiExtraction.LegiRecords | rag-juridique/ingestion/ingest_from_legi_extracted.py:231-244 | one record per parsed article |
| LegiExtraction.BuildRecords | rag-juridique/ingestion/ingest_from_legi_extracted.py:231-244 | the loop builds exactly the records of the parsed articles |
| LegiExtraction.LegiRecordsEach | rag-juridique/ingestion/ingest_from_legi_extracted.py:232-244 | record `i` is made from article `i`, a missing id becoming `<code id>_<num>` |
| LegiExtraction.FirstNamed | rag-juridique/ingestion/ingest_from_legi_extracted.py:185-188 | the directory chosen is named like the code, and none is chosen exactly when no directory is |
| LegiExtraction.FindCodeByName | rag-juridique/ingestion/ingest_from_legi_extracted.py:275-281 | the code chosen is the first whose lower-cased name contains the lower-cased argument, and none is chosen exactly when no name does |
| LegiExtraction.LegiIngester.constructor | rag-juridique/ingestion/ingest_from_legi_extracted.py:35 | the directory cache starts empty |
| LegiExtraction.LegiIngester.CodeDirs | rag-juridique/ingestion/ingest_from_legi_extracted.py:176-183 | a root already cached is served from the cache unchanged; otherwise it is searched and the result cached |
| LegiExtraction.LegiIngester.IngestCode | rag-juridique/ingestion/ingest_from_legi_extracted.py:136-246 | the direct path is used when it exists, with the cache untouched; otherwise the first cached or searched directory named like the code; never more records than a positive limit |
| LegiExtraction.LegiIngester.LimitedArticles | rag-juridique/ingestion/ingest_from_legi_extracted.py:190-246 | without a directory or XML files nothing; otherwise the parsed articles cut to the limit, as records, never more than a positive limit |
| LegiExtraction.LegiIngester.RunCommand | rag-juridique/ingestion/ingest_from_legi_extracted.py:249-384 | exit 1 when the root is missing, the `--code` matches nothing, `--all` finds no directory or neither option is given, and nothing is counted then; otherwise each selected code counts once as succeeded or failed and the exit code is 0 |
| AvailabilityCalendar.SetDay | components/CalendarAvailability.tsx:130-131 | writing one week day's entry changes that day and leaves the six others as they were |
| AvailabilityCalendar.WeekStartIsMondayMidnight | components/CalendarAvailability.tsx:74 | the start of the current week is midnight of a Monday |
| AvailabilityCalendar.TwoDigits | components/CalendarAvailability.tsx:127-128 | 'HH'/'mm' renders a number below 100 as its two decimal digits |
| AvailabilityCalendar.CanonicalReadsBack | components/CalendarAvailability.tsx:97-128 | a canonical "HH:mm" string reads as a minute of the day and is formatted back to itself |
| AvailabilityCalendar.SlotEventsShape | components/CalendarAvailability.tsx:96-111 | a day's ranges give one event each, the i-th range giving the i-th event |
| AvailabilityCalendar.DayEventsShape | components/CalendarAvailability.tsx:95-111 | an enabled day gives one availability event per range, with id avail-{day}-{i}; a disabled day gives none |
| AvailabilityCalendar.SlotEventsOfDay | components/CalendarAvailability.tsx:96-111 | the inner forEach pushes exactly the events of the day's ranges, in order |
| AvailabilityCalendar.AvailabilityToEvents | components/CalendarAvailability.tsx:71-115 | the events are the projections of every day's ranges, days in key order, onto the current week |
| AvailabilityCalendar.LexLeTotal | components/CalendarAvailability.tsx:142 | the start-time comparison orders any two ranges one way or the other |
| AvailabilityCalendar.LexLeTrans | components/CalendarAvailability.tsx:142 | the start-time comparison is transitive |
| AvailabilityCalendar.InsertSlotSpec | components/CalendarAvailability.tsx:142 | inserting a range into a sorted day keeps the same ranges plus the new one, sorted by start |
| AvailabilityCalendar.SortSlotsSpec | components/CalendarAvailability.tsx:142 | sorting a day's ranges keeps the same ranges and orders them by start |
| AvailabilityCalendar.SortSlotsSorted | components/CalendarAvailability.tsx:142 | sorting leaves an already sorted day unchanged |
| AvailabilityCalendar.AnyThrowsSpec | components/CalendarAvailability.tsx:127-128 | reading the events throws exactly when some event's end cannot be formatted |
| AvailabilityCalendar.RebuildDay | components/CalendarAvailability.tsx:118-146 | each day of the rebuilt availability is that day's collected and sorted ranges |
| AvailabilityCalendar.RebuildSpec | components/CalendarAvailability.tsx:118-146 | a rebuilt day is enabled exactly when some availability event with a start and end lands on it, and its ranges are exactly those events' ranges, sorted by start |
| AvailabilityCalendar.BucketNonEmpty | components/CalendarAvailability.tsx:121-137 | a day receives a range exactly when some event lands on it |
| AvailabilityCalendar.BucketStep | components/CalendarAvailability.tsx:121-137 | one more event adds its range to its own day and to no other |
| AvailabilityCalendar.ThrowingEvent | components/CalendarAvailability.tsx:127-128 | one event whose end cannot be formatted makes the whole reading throw |
| AvailabilityCalendar.CollectStep | components/CalendarAvailability.tsx:121-137 | after one more event every day still holds exactly the ranges of the events read so far |
| AvailabilityCalendar.EventsToAvailability | components/CalendarAvailability.tsx:118-146 | the method returns the rebuilt availability, or nothing when format throws |
| AvailabilityCalendar.InstantOfWeek | components/CalendarAvailability.tsx:93-101 | a minute placed on day p of a week that starts on Monday falls on week day DayAt(p), at that minute |
| AvailabilityCalendar.FormatAtClock | components/CalendarAvailability.tsx:97-128 | a canonical clock string placed on a day of the week reads back as itself, on that week day |
| AvailabilityCalendar.BucketAppend | components/CalendarAvailability.tsx:121-137 | what a day receives from two lists of events is what it receives from each, in order |
| AvailabilityCalendar.AnyThrowsAppend | components/CalendarAvailability.tsx:121-137 | reading two lists throws exactly when reading either throws |
| AvailabilityCalendar.EventOfSlot | components/CalendarAvailability.tsx:96-135 | the event of a canonical range can be read, lands on its own day only, and reads back as the same range |
| AvailabilityCalendar.BucketOfLandsAs | components/CalendarAvailability.tsx:121-137 | events that each read back as the ranges of one day give that day exactly those ranges and other days none |
| AvailabilityCalendar.SlotEventsLandAs | components/CalendarAvailability.tsx:96-135 | a day's events land, as its own ranges, on that day and on no other |
| AvailabilityCalendar.DayEventsLand | components/CalendarAvailability.tsx:95-135 | the events of one enabled day bring exactly its ranges to its week day and nothing elsewhere |
| AvailabilityCalendar.BucketFromDay | components/CalendarAvailability.tsx:76-135 | the events of the days before position p bring each of those enabled days its own ranges |
| AvailabilityCalendar.RoundTrip | components/CalendarAvailability.tsx:71-146 | reading back the events projected from canonical availability gives each day its ranges sorted by start, enabled exactly when it was enabled with at least one range |
| AvailabilityCalendar.WithoutIdSpec | components/CalendarAvailability.tsx:242 | filtering by id keeps exactly the events with another id, and never lengthens the list |
| AvailabilityCalendar.MoveEventSpec | components/CalendarAvailability.tsx:252-282 | moving or resizing leaves an external event's list alone; otherwise the events with another id stay in order and the moved event comes last with the new start and end and the same id |
| AvailabilityCalendar.FindByIdSameId | components/CalendarAvailability.tsx:256 | the event found by id carries that id |
| AvailabilityCalendar.DeleteEventSpec | components/CalendarAvailability.tsx:238-250 | deleting keeps the list for an external event or a refused confirmation; otherwise it keeps exactly the events with another id |
| AvailabilityCalendar.AvailabilityOnlyThrows | components/CalendarAvailability.tsx:234 | dropping external events does not change whether reading throws |
| AvailabilityCalendar.AvailabilityOnlyBucket | components/CalendarAvailability.tsx:234 | dropping external events does not change what any day receives |
| AvailabilityCalendar.AvailabilityOnlyMembers | components/CalendarAvailability.tsx:234 | the filter keeps exactly the availability events |
| AvailabilityCalendar.AvailabilityOnlyRebuild | components/CalendarAvailability.tsx:234 | every handler's filter before rebuilding gives the same availability as the whole list |
| AvailabilityCalendar.SelectSlotAddsRange | components/CalendarAvailability.tsx:219-236 | a drawn range adds its formatted start and end to its start day's ranges |
| GoogleCalendar.Weekday | services/googleCalendarService.ts:209 | `getDay()` of an instant is a day number from 0 (Sunday) to 6 |
| GoogleCalendar.MinuteOfDay | services/googleCalendarService.ts:218-220 | `getHours() * 60 + getMinutes()` lies within the day, below 1440 |
| GoogleCalendar.ClockMinutesOfClock | services/googleCalendarService.ts:224-227 | an "HH:mm" bound reads back as its minute of the day |
| GoogleCalendar.AnySlotContainsMeans | services/googleCalendarService.ts:223-230 | `some` over the day's ranges holds iff one `[start, end)` range contains the minute |
| GoogleCalendar.AvailabilityRule | services/googleCalendarService.ts:200-231 | without hours every slot is accepted; on a disabled day or one without ranges none is; otherwise a slot is accepted iff a range of its week day contains its minute |
| GoogleCalendar.BusySlotsThrows | services/googleCalendarService.ts:249-256 | the busy ranges cannot be built (`toISOString` throws a RangeError) exactly when some event with a truthy start `dateTime` has a start or end that is not a readable date |
| GoogleCalendar.BusySlotsMembers | services/googleCalendarService.ts:249-256 | when the busy ranges are built, every one spans a timed event's start and end, and every event with readable start and end gives one |
| GoogleCalendar.AllDayEventsNeverBlock | services/googleCalendarService.ts:250 | an all-day event, wherever it sits, leaves the busy ranges unchanged |
| GoogleCalendar.IsBusyMeansOverlap | services/googleCalendarService.ts:284-286 | a candidate is busy iff it overlaps one of the busy ranges |
| GoogleCalendar.AcceptableMeans | services/googleCalendarService.ts:292 | an offered slot starts after the minimum notice, ends by the range end, overlaps no busy range and lies in the availability hours |
| GoogleCalendar.Step | services/googleCalendarService.ts:297 | with a positive interval the candidate moves forward by a positive number of milliseconds |
| GoogleCalendar.DaySlotsUnfold | services/googleCalendarService.ts:280-298 | one round of the day loop offers the candidate when it passes the test and goes on from the next one |
| GoogleCalendar.NonPositiveIntervalNeverEnds | services/googleCalendarService.ts:273-297 | as written, an interval of zero or less never moves the candidate, so an entered day loop never ends |
| GoogleCalendar.PositiveIntervalEnds | services/googleCalendarService.ts:273-297 | with a positive interval the day loop as written ends and offers exactly the day's slots |
| GoogleCalendar.DaySlotsSound | services/googleCalendarService.ts:276-298 | every slot offered in a day is a candidate of that day's grid, before 19:00 and the range end, that passes the test |
| GoogleCalendar.DaySlotsComplete | services/googleCalendarService.ts:276-298 | every candidate of the day's grid that passes the test is offered |
| GoogleCalendar.DaySlotsAbove | services/googleCalendarService.ts:276-298 | no slot of a day comes before the candidate the scan starts from |
| GoogleCalendar.DaySlotsIncreasing | services/googleCalendarService.ts:276-298 | the slots of one day are strictly increasing |
| GoogleCalendar.SlotsFromSound | services/googleCalendarService.ts:270-299 | every slot offered from a day on starts at or after that day's 08:00 and passes the test of one of the remaining scanned days |
| GoogleCalendar.FreeSlotsSound | services/googleCalendarService.ts:261-302 | every free slot lies on the 08:00 grid of one of the eight scanned days, ends by 19:00 and by the range end, starts 15 minutes or more after now, overlaps no timed event and lies in the availability hours |
| GoogleCalendar.FreeSlotsComplete | services/googleCalendarService.ts:261-302 | every grid candidate of a scanned day that passes the test is a free slot |
| GoogleCalendar.SlotsFromContainsDay | services/googleCalendarService.ts:270-299 | a slot offered on a day is among the slots from any earlier day on |
| GoogleCalendar.SlotsFromIncreasing | services/googleCalendarService.ts:270-299 | the slots from any day on come out strictly increasing |
| GoogleCalendar.FreeSlotsIncreasing | services/googleCalendarService.ts:261-302 | the free slots come out in strictly increasing order, hence without repetition |
| GoogleCalendar.AvailableSlots | services/googleCalendarService.ts:236-307 | the call rejects exactly when a timed event has an unreadable start or an absent or unreadable end; otherwise the method's nested loops produce exactly the free slots of the query, given a positive interval |
| GoogleCalendar.CollectDay | services/googleCalendarService.ts:276-298 | the inner loop produces exactly the slots of the day |
| GoogleCalendar.DaySlotsIgnoresStart | services/googleCalendarService.ts:276-298 | the slots of a day do not depend on the start date, only on the day's own bounds |
| GoogleCalendar.UsableCalendarsMembers | services/googleCalendarService.ts:54-63 | every listed calendar comes from an entry that is neither deleted nor without access, every such entry is listed, and a calendar's summary is empty only when its id is |
| GoogleCalendar.CalendarList | services/googleCalendarService.ts:28-69 | any failed listing falls back to the primary calendar alone; a successful one lists no more calendars than entries |
| GoogleCalendar.UsableCalendarsLength | services/googleCalendarService.ts:54-57 | filtering never adds calendars |
| GoogleCalendar.FirstOfEachIdUnfold | services/googleCalendarService.ts:178-180 | the ids of a list are those of its prefix and of its last event |
| GoogleCalendar.FirstOfEachIdCovers | services/googleCalendarService.ts:178-180 | deduplication loses no id |
| GoogleCalendar.FirstOfEachIdDistinct | services/googleCalendarService.ts:178-180 | the deduplicated list has pairwise distinct ids |
| GoogleCalendar.FirstOfEachIdKeepsFirst | services/googleCalendarService.ts:178-180 | every kept event is the first event of the input carrying its id |
| GoogleCalendar.BatchesStep | services/googleCalendarService.ts:152-153 | the batches from `i` on are `slice(i, i + 3)` followed by the batches after it |
| GoogleCalendar.BatchesPartition | services/googleCalendarService.ts:147-172 | batches hold one to three calendars, there are ceil(n / 3) of them, and read in order they give every calendar once |
| GoogleCalendar.AllEventsAppend | services/googleCalendarService.ts:161-175 | the events of two lists of calendars are the events of the first followed by those of the second |
| GoogleCalendar.BatchLoopStep | services/googleCalendarService.ts:152-172 | one batch extends the collected events with its calendars' events and is the first of the remaining batches |
| GoogleCalendar.GoogleCalendarEvents | services/googleCalendarService.ts:124-195 | the calendars (or the primary one) are requested in batches of three, and the result is every calendar's events in order, a failed calendar giving none, deduplicated by id |
| CalendarSync.AppointmentToEvent | services/calendarSyncService.ts:362-381 | an appointment becomes a read-only, non-deletable event with id "apt-" + its id, starting at its date and lasting its duration (60 minutes when none is set) |
| CalendarSync.GoogleToUnified | services/calendarSyncService.ts:383-404 | a Google event becomes an editable, deletable event with id "google-" + its id, all-day exactly when it has no dateTime, starting at its dateTime or else its date |
| CalendarSync.OutlookToUnified | services/calendarSyncService.ts:406-422 | an Outlook event becomes an editable, deletable event with id "outlook-" + its id, all-day exactly when isAllDay is true |
| CalendarSync.PersonalToUnified | services/calendarSyncService.ts:103-120 | a personal event keeps its own id, is editable and deletable, all-day only when set so, and takes the personal colour when it has none |
| CalendarSync.PrefixedIdsDiffer | services/calendarSyncService.ts:362-422 | events from the three prefixed converters never share an id |
| CalendarSync.FetchAllCalendarEvents | services/calendarSyncService.ts:78-161 | the result is what the four blocks push (appointments in range and not cancelled, personal events, then each connected provider's events; a block whose read raised pushes nothing), sorted by start |
| CalendarSync.MergedOrder | services/calendarSyncService.ts:158 | the merged list is ordered by start and holds every pushed event as often as it was pushed |
| CalendarSync.MergedAppointments | services/calendarSyncService.ts:89-100 | every appointment event of the merge is the conversion of a listed appointment inside the range that is not cancelled |
| CalendarSync.MergedIncludes | services/calendarSyncService.ts:89-100 | every listed appointment inside the range that is not cancelled appears in the merge |
| CalendarSync.RouteEdit | services/calendarSyncService.ts:251-323 | an update or deletion goes to the personal store under the event's id, or to the provider under the id with the first prefix occurrence removed, and nowhere when that provider has no token |
| CalendarSync.RouteEditRoundTrip | services/calendarSyncService.ts:273-297 | removing the prefix undoes the converter, so an edit of a merged provider event reaches that provider's own event |
| CalendarSync.ProviderStatusOf | services/calendarSyncService.ts:336-355 | a provider is reported connected exactly when its credentials say so, with its last sync when set, and no event count |
| CalendarSync.CalendarSyncStatus | services/calendarSyncService.ts:328-358 | the status holds each provider's block, and appointment and personal-event counts stay 0 |
| DailyTranscripts.KeepBothPresent | services/dailyService.ts:227-246 | the loop keeps, in order, exactly the sessions with at least two participants or more than 30 seconds of recording |
| DailyTranscripts.SectionsStep | services/dailyService.ts:265-289 | one more session adds its section when it has text, and nothing otherwise |
| DailyTranscripts.SectionOf | services/dailyService.ts:266-288 | a session gives its timestamped section when its transcript (else text) is non-blank, and nothing when it only has a WebVTT link or blank text |
| DailyTranscripts.CombineSections | services/dailyService.ts:263-289 | the extraction loop pushes exactly the sections of the sorted sessions that have text |
| DailyTranscripts.GetRoomTranscript | services/dailyService.ts:162-305 | the method returns the pipeline's result, with its early returns: a missing key raises, a 404 or an empty list gives "", another failing status raises with status and body |
| DailyTranscripts.InvalidDateGivesNothing | services/dailyService.ts:205-223 | with a duration, an appointment date `new Date` cannot read lets no session through the window, so a listed answer gives "" |
| DailyTranscripts.CombineListed | services/dailyService.ts:202-300 | the window filter, presence filter, sort and join over a non-empty list give the listed transcript |
| DailyTranscripts.SectionsSpec | services/dailyService.ts:263-289 | the sections are those of the sessions with text, in order, one each |
| DailyTranscripts.SectionsLength | services/dailyService.ts:263-289 | there is one section per session with text |
| DailyTranscripts.SectionAt | services/dailyService.ts:263-289 | the i-th section is that of the i-th session with text |
| DailyTranscripts.ContributingMembers | services/dailyService.ts:202-289 | a session reaches the text exactly when it lies in the window (when one is given), has both parties or a significant duration, and has non-blank text |
| DailyTranscripts.ContributingOrder | services/dailyService.ts:255-260 | the contributing sessions come in ascending start order, a missing start counting as 0, each as often as it was listed |
| DailyTranscripts.RoomTranscriptJoins | services/dailyService.ts:195-300 | with a listed answer the early returns agree with joining, by a blank line, the sections of the sorted surviving sessions |
| DailyTranscripts.EmptyTranscript | services/dailyService.ts:167-300 | a missing key raises; another failing status raises with status and body; a 404 or an empty list gives ""; a listed answer gives "" exactly when no session qualifies |
| Diligence.EntryOf | components/DiligenceTracker.tsx:67-79 | a stored document becomes an entry with its id, end and duration, billable unless the document says `false` |
| Diligence.ActiveIndex | components/DiligenceTracker.tsx:84-86 | the index found is -1 or an entry without an end, and every later entry has an end (the last open entry wins) |
| Diligence.ActiveIndexAppend | components/DiligenceTracker.tsx:81-86 | one more document makes itself the running entry when it has no end and leaves the choice unchanged otherwise |
| Diligence.ActiveEntrySpec | components/DiligenceTracker.tsx:83-90 | a running entry is found exactly when some entry has no end, and it is such an entry of the list |
| Diligence.CollectEntries | components/DiligenceTracker.tsx:62-87 | the snapshot loop yields every document as an entry in order, and the last entry without an end |
| Diligence.Pad2Value | components/DiligenceTracker.tsx:189 | `padStart(2, '0')` gives at least two digits that read back as the number, exactly two below 100 |
| Diligence.FieldsReadBack | components/DiligenceTracker.tsx:189 | three digit fields joined by colons form an `H:MM:SS` clock whose fields read back as them |
| Diligence.ClockParts | components/DiligenceTracker.tsx:186-188 | minutes and seconds are below 60 and hours, minutes and seconds add back up to the duration |
| Diligence.FormatDurationReadsBack | components/DiligenceTracker.tsx:185-190 | `formatDuration` renders an `H:MM:SS` clock whose minutes and seconds are below 60 and whose fields add up to the duration |
| Diligence.BillableAtMostTotal | components/DiligenceTracker.tsx:193-194 | with no negative duration, billable time lies between 0 and the total, and the difference is the time of the non-billable entries |
| Diligence.DiligenceTracker.constructor | components/DiligenceTracker.tsx:27-33 | the tracker starts with no entry, nothing running, no elapsed time, an empty form and billable ticked |
| Diligence.DiligenceTracker.OnSnapshot | components/DiligenceTracker.tsx:61-97 | the listener replaces the entries with the snapshot's, picks the last open one as running and computes its elapsed seconds against the clock |
| Diligence.DiligenceTracker.StartDiligence | components/DiligenceTracker.tsx:125-141 | nothing happens while an entry runs; otherwise a billable entry starting now is added under the chosen category or 'Autre' and the description is cleared |
| Diligence.DiligenceTracker.StopDiligence | components/DiligenceTracker.tsx:144-164 | nothing happens unless an entry runs; otherwise it is closed with its whole-second duration and the typed or default description and category, then the form is reset |
| Diligence.StopEntryWellFormed | components/DiligenceTracker.tsx:147-156 | a stop at or after the start records the elapsed time to the second, never negative, and never an empty description or category |
| Documents.TypeOfExtension | services/documentService.ts:15-32 | the five image extensions give IMAGE, `doc`, `docx` and `txt` their own types, and every other extension, `pdf` and the empty one included, gives PDF (each an if-and-only-if) |
| Documents.LastPieceAfterSeparator | services/documentService.ts:14 | `split('.').pop()` on a name ending in `.ext` with a dot-free `ext` yields `ext` |
| Documents.DetectFileTypeOfExtension | services/documentService.ts:13-33 | the type of `base.ext` is decided by the lower-cased text after the last dot alone |
| Documents.DetectFileTypeWithoutDot | services/documentService.ts:13-33 | a name without a dot is classified by the whole lower-cased name |
| Documents.CreateDocument | services/documentService.ts:50-70 | the created document carries the new key as id, the current time as upload time, and the given data unchanged |
| Documents.CollectDocuments | services/documentService.ts:87-102 | the `forEach` loop pushes, in snapshot order, exactly the records that pass the test |
| Documents.SortedListing | services/documentService.ts:87-107 | the listing holds each passing record as often as it occurs in the store, no other, newest first |
| Documents.DocumentsForUser | services/documentService.ts:75-115 | a lawyer gets the documents of which they are the lawyer, a client those of which they are the client and that are shared, newest first |
| Documents.SharedDocuments | services/documentService.ts:120-153 | the documents whose lawyer and client both match, shared or not, newest first |
| Documents.DocumentsByAppointment | services/documentService.ts:239-263 | exactly the documents of the appointment, in snapshot order |
| Documents.CountDocumentsForUser | services/documentService.ts:268-274 | the count is the number of documents the user sees, never more than the store holds |
| Downloads.Unexpired | rag-juridique/api/routes/downloads.py:153-159 | a sweep keeps exactly the entries whose expiry is not strictly before the clock, each unchanged |
| Downloads.ExpiredIds | rag-juridique/api/routes/downloads.py:153-156 | the ids removed are exactly those of the entries strictly past their expiry |
| Downloads.SweepPartition | rag-juridique/api/routes/downloads.py:153-166 | removed and kept entries between them account for every entry exactly once |
| Downloads.DownloadStore.constructor | rag-juridique/api/routes/downloads.py:18 | the store starts empty |
| Downloads.DownloadStore.StoreDocument | rag-juridique/api/routes/downloads.py:23-61 | the document is filed under the fresh id with an expiry 24 hours on, and the receipt gives that id, its download path and the expiry |
| Downloads.DownloadStore.DownloadDocument | rag-juridique/api/routes/downloads.py:62-114 | an unknown id gives 404 and changes nothing; an expired one gives 410 and is dropped; any other is returned exactly when its temporary file is written and its content is text or valid base64, and gives 500 otherwise; only the 410 case changes the store |
| Downloads.DownloadStore.DeleteDocument | rag-juridique/api/routes/downloads.py:118-143 | a known id is removed alone and echoed back; an unknown one gives 404 and changes nothing |
| Downloads.DownloadStore.CleanupExpiredDocuments | rag-juridique/api/routes/downloads.py:144-170 | the store keeps exactly its unexpired entries, and the cleaned and remaining counts add up to its size before the sweep |
| PdfStyle.HexDigit | rag-juridique/utils/pdf_style_analyzer.py:407 | the digit written for a value below 16 is a hex digit that reads back as that value |
| PdfStyle.HexByte | rag-juridique/utils/pdf_style_analyzer.py:407 | `f"{n:02x}"` of a byte is two hex digits that read back as the byte |
| PdfStyle.ColorToHex | rag-juridique/utils/pdf_style_analyzer.py:401-407 | `#` and six hex digits whose pairs read back as bits 16-23, 8-15 and 0-7 of the colour |
| PdfStyle.ColorToHexRoundTrip | rag-juridique/utils/pdf_style_analyzer.py:401-407 | for a 24-bit colour the three bytes read back from the hex string recompose the colour |
| PdfStyle.DetectPageFormat | rag-juridique/utils/pdf_style_analyzer.py:389-399 | "A4" exactly within 10 points of 595 x 842, "Letter" exactly within 10 points of 612 x 792, "Custom" exactly when neither |
| PdfStyle.GatherSpansMembers | rag-juridique/utils/pdf_style_analyzer.py:109-115 | a value is gathered from a line exactly when one of its spans gives it |
| PdfStyle.GatherLinesMembers | rag-juridique/utils/pdf_style_analyzer.py:108-115 | a value is gathered from a block exactly when a span of one of its lines gives it |
| PdfStyle.GatherBlocksMembers | rag-juridique/utils/pdf_style_analyzer.py:106-125 | a value is collected exactly when a span of a line of a text block gives it; other blocks contribute nothing |
| PdfStyle.CollectFontsAndSizes | rag-juridique/utils/pdf_style_analyzer.py:102-115 | the first pass collects the non-empty font names and non-zero sizes of the text spans |
| PdfStyle.AddBlockFontsAndSizes | rag-juridique/utils/pdf_style_analyzer.py:108-115 | the lines loop adds the fonts and sizes of one text block |
| PdfStyle.AddLineFontsAndSizes | rag-juridique/utils/pdf_style_analyzer.py:109-115 | the spans loop adds the fonts and sizes of one line |
| PdfStyle.CollectColors | rag-juridique/utils/pdf_style_analyzer.py:118-125 | the second pass collects the non-zero colours of the text spans |
| PdfStyle.AddBlockColors | rag-juridique/utils/pdf_style_analyzer.py:121-125 | the lines loop adds the colours of one text block |
| PdfStyle.AddLineColors | rag-juridique/utils/pdf_style_analyzer.py:122-125 | the spans loop adds the colours of one line |
| PdfStyle.ListOf | rag-juridique/utils/pdf_style_analyzer.py:138 | `list(a_set)` holds every element of the set exactly once |
| PdfStyle.InsertDescending | rag-juridique/utils/pdf_style_analyzer.py:139 | inserting into a descending list keeps it descending and adds exactly the one value |
| PdfStyle.ConsDescending | rag-juridique/utils/pdf_style_analyzer.py:139 | a value no smaller than the head of a descending list can go in front of it |
| PdfStyle.SortDescending | rag-juridique/utils/pdf_style_analyzer.py:139 | `sorted(values, reverse=True)` is descending and a permutation of the values |
| PdfStyle.TopValues | rag-juridique/utils/pdf_style_analyzer.py:139 | the first `n` of a descending sort are the largest: a value left out is no larger than any kept |
| PdfStyle.ColorsToHex | rag-juridique/utils/pdf_style_analyzer.py:140 | one hex string per colour, in order |
| PdfStyle.ExtractTechnicalData | rag-juridique/utils/pdf_style_analyzer.py:82-148 | the page size and its format, at most five distinct fonts of the page, its five largest sizes in decreasing order, and up to five of its colours as hex strings |
| PdfStyle.TopSizes | rag-juridique/utils/pdf_style_analyzer.py:139 | the five first of the descending sort are at most five values of the list, descending, and the largest ones |
| PdfStyle.HexOfListed | rag-juridique/utils/pdf_style_analyzer.py:140 | each hex string kept stands for a colour of the set |
| PdfStyle.StructuredTextOf | rag-juridique/utils/pdf_style_analyzer.py:169-179 | the stripped header and footer, and the first 500 characters (or fewer) of the stripped body |
| PdfStyle.MaxOf | rag-juridique/utils/pdf_style_analyzer.py:380 | `max(values)` is one of the values and no smaller than any |
| PdfStyle.GenerateBasicTemplate | rag-juridique/utils/pdf_style_analyzer.py:341-387 | the first font or Arial everywhere, the largest size or 16 for titles, the detected format, portrait, 72-point margins, and the extracted header and footer text |
| PdfStyle.TitleSizeIsFirst | rag-juridique/utils/pdf_style_analyzer.py:139-380 | with sizes in decreasing order, the title size is the first of them |
| MyAppointments.SortedAppointmentsMembers | pages/MyAppointmentsPage.tsx:50-94 | an appointment is rendered exactly when it is one of the user's (held as lawyer, booked as client) and passes both the status filter and the type filter |
| MyAppointments.FilteredByTypeMembers | pages/MyAppointmentsPage.tsx:78-81 | the type filter keeps exactly the appointments of the chosen type, or all of them for 'all' |
| MyAppointments.SortedAppointmentsOrder | pages/MyAppointmentsPage.tsx:84-94 | past and all are listed newest first, upcoming and cancelled oldest first |
| MyAppointments.StatusFiltersPartition | pages/MyAppointmentsPage.tsx:59-75 | cancelled takes exactly the cancelled appointments; every other appointment is either upcoming (today or later) or past (before today), never both |
| MyAppointments.JoinAndCancelExclusive | pages/MyAppointmentsPage.tsx:161-177 | the join button (five minutes before to one hour after the start) and the cancel button (24 hours or more ahead) never show together; a cancellable appointment is upcoming, a joinable one is upcoming or past |
| LawyerRegistration.WithFieldGet | pages/LawyerRegistrationPage.tsx:75-76 | writing a field and reading it back gives the value written; every other field keeps its value |
| LawyerRegistration.EmailValidShape | pages/LawyerRegistrationPage.tsx:104 | an email the pattern accepts has no whitespace and exactly one `@`, not at its start |
| LawyerRegistration.EmailValidParts | pages/LawyerRegistrationPage.tsx:104 | three non-empty runs without whitespace or `@`, joined by `@` and `.`, are accepted |
| LawyerRegistration.ErrorFields | pages/LawyerRegistrationPage.tsx:97-139 | the fields of the error record, in order |
| LawyerRegistration.ErrorFieldsAppend | pages/LawyerRegistrationPage.tsx:97-139 | the fields of a record are those of its parts, in order |
| LawyerRegistration.RecordedEmpty | pages/LawyerRegistrationPage.tsx:139-140 | nothing is recorded exactly when no test fails |
| LawyerRegistration.RecordedFields | pages/LawyerRegistrationPage.tsx:97-139 | a field holds an error exactly when a test on it failed, and every entry is a failed test's field and message |
| LawyerRegistration.AllPassTwo | pages/LawyerRegistrationPage.tsx:134-135 | two tests pass together exactly when each passes |
| LawyerRegistration.AllPassThree | pages/LawyerRegistrationPage.tsx:118-120 | three tests pass together exactly when each passes |
| LawyerRegistration.AllPassFour | pages/LawyerRegistrationPage.tsx:124-130 | four tests pass together exactly when each passes |
| LawyerRegistration.AllPassSix | pages/LawyerRegistrationPage.tsx:101-114 | six tests pass together exactly when each passes |
| LawyerRegistration.ChecksPassSpec | pages/LawyerRegistrationPage.tsx:96-137 | no test of a step fails exactly when the step's requirements, stated field by field, hold |
| LawyerRegistration.ValidateStepSpec | pages/LawyerRegistrationPage.tsx:96-141 | a step passes exactly when no error is recorded, exactly when its requirements hold; step 5 always passes; the number bounds are JavaScript comparisons, which `NaN` never fails |
| LawyerRegistration.EmptiedNumberPasses | pages/LawyerRegistrationPage.tsx:120-134 | an emptied years or rate input (`parseInt` gives `NaN`) fails neither bound, so step 2 then depends on bar number and firm alone and step 4 on the languages alone |
| LawyerRegistration.RecordedHas | pages/LawyerRegistrationPage.tsx:97-139 | a failed test leaves its entry in the record |
| LawyerRegistration.RecordedOnly | pages/LawyerRegistrationPage.tsx:97-139 | when only one test reports on a field, the record holds that field's entry exactly when the test failed, with its message |
| LawyerRegistration.EmailMessage | pages/LawyerRegistrationPage.tsx:103-106 | the email is reported missing exactly when blank, and invalid exactly when non-blank and rejected by the pattern |
| LawyerRegistration.ToggleSpec | pages/LawyerRegistrationPage.tsx:87-94 | toggling flips the language's presence, leaves every other language as it was, and toggling an absent language twice restores the list |
| LawyerRegistration.CityCoordinatesDefault | pages/LawyerRegistrationPage.tsx:154-180 | the centre of France is returned exactly for cities outside the table, and a listed city gets its own entry |
| LawyerRegistration.ProfileOf | pages/LawyerRegistrationPage.tsx:190-218 | the profile's name is first and last name, its location the city and ", France", its coordinates the city's, and it is an unverified lawyer |
| LawyerRegistration.RegistrationWizard.constructor | pages/LawyerRegistrationPage.tsx:43-72 | the wizard starts at step 1 with the initial form and no errors |
| LawyerRegistration.RegistrationWizard.UpdateField | pages/LawyerRegistrationPage.tsx:75-85 | the field is set, its error alone is cleared, and the step is unchanged |
| LawyerRegistration.RegistrationWizard.ToggleLanguage | pages/LawyerRegistrationPage.tsx:87-94 | only the language list changes, by the toggle |
| LawyerRegistration.RegistrationWizard.ValidateStep | pages/LawyerRegistrationPage.tsx:96-141 | the record becomes the step's errors and the result is true exactly when the step's requirements hold |
| LawyerRegistration.RegistrationWizard.HandleNext | pages/LawyerRegistrationPage.tsx:143-147 | the wizard moves on one step, never past step 5, exactly when the current step is valid |
| LawyerRegistration.RegistrationWizard.HandlePrevious | pages/LawyerRegistrationPage.tsx:149-151 | the wizard moves back one step, never before step 1 |
| LawyerRegistration.RegistrationWizard.HandleSubmit | pages/LawyerRegistrationPage.tsx:182-218 | a profile is produced exactly when the current step validates, and it is the profile of the form |
| StylePresets.HexRun | components/profile-builder/shared/stylePresets.ts:17-19 | the leading run of hexadecimal digits is part of the string |
| StylePresets.RemoveFirstHash | components/profile-builder/shared/stylePresets.ts:14 | `replace('#', '')` leaves a string without `#` unchanged and drops a leading one |
| StylePresets.GradientSplit | components/profile-builder/shared/stylePresets.ts:8-10 | `split(':')` of a gradient is "gradient" followed by the pieces of the rest |
| StylePresets.HexCharDigit | components/profile-builder/shared/stylePresets.ts:17-19 | a hex digit written for a value reads back as that value |
| StylePresets.ParseHex2 | components/profile-builder/shared/stylePresets.ts:17-19 | `parseInt(.., 16)` of a channel written as two hex digits gives the channel |
| StylePresets.LightChannelsOfRgb | components/profile-builder/shared/stylePresets.ts:17-24 | six hex digits pass the luminance test exactly when their three channels do |
| StylePresets.IsLightColorOfRgb | components/profile-builder/shared/stylePresets.ts:6-25 | "#rrggbb", or "rrggbb" without the hash, is light exactly when its channels pass the luminance test |
| StylePresets.ColorOfGradient | components/profile-builder/shared/stylePresets.ts:8-11 | the colour read from a gradient is its first colour, and a plain colour is read as itself |
| StylePresets.IsLightColorOfGradient | components/profile-builder/shared/stylePresets.ts:6-25 | a gradient is as light as its first colour |
| StylePresets.BlackIsNotLight | components/profile-builder/shared/stylePresets.ts:6-25 | black is not light |
| StylePresets.CustomColorStyles | components/profile-builder/shared/stylePresets.ts:30-47 | no style exactly without a custom, non-empty background; a gradient style exactly for a gradient background; otherwise the background colour itself |
| StylePresets.GradientStyle | components/profile-builder/shared/stylePresets.ts:35-41 | "gradient:<from>:<to>" is drawn as a 135-degree linear gradient from `from` to `to` |
| StylePresets.ShouldUseLightTextSpec | components/profile-builder/shared/stylePresets.ts:52-63 | light text only on a custom background; an explicit light or dark choice wins; otherwise light text exactly on a background that is not light |
| StylePresets.CustomTextClasses | components/profile-builder/shared/stylePresets.ts:68-88 | the white classes exactly when light text is wanted, the deep ones otherwise |
| StylePresets.StylePresetIsDark | components/profile-builder/shared/stylePresets.ts:94-179 | only the primary and dark presets are dark |
| StylePresets.StylePresetText | components/profile-builder/shared/stylePresets.ts:94-179 | clean (also the default), cream and glass share their text classes; custom leaves container and text to the inline style |
| StylePresets.HasInherentStylingSpec | components/profile-builder/shared/stylePresets.ts:184-186 | among block types, exactly statistics, map and video keep their own styling |
| ProfileTemplates.IdCountAppend | services/templateService.ts:42 | pushing a template adds one to the count of its id only |
| ProfileTemplates.WithoutTemplateMembers | services/templateService.ts:57 | deleting removes every template with the id and keeps every other one |
| ProfileTemplates.WithoutTemplateCount | services/templateService.ts:57 | after deleting no template has the id, and every other id keeps its count |
| ProfileTemplates.WithoutTemplateLength | services/templateService.ts:57 | deleting shortens the list by exactly the number of templates with the id |
| ProfileTemplates.UpsertedSpec | services/templateService.ts:40-43 | after a save exactly one template has the saved id, it is the last one and it is the saved template; every other id keeps its templates |
| ProfileTemplates.WithoutTemplateAbsent | services/templateService.ts:57 | deleting an id no template has changes nothing |
| ProfileTemplates.WithoutTemplateTwice | services/templateService.ts:57 | deleting twice is deleting once |
| ProfileTemplates.UpsertedThenDeleted | services/templateService.ts:38-64 | saving the same template twice stores what saving once does, and deleting after saving leaves what deleting alone leaves |
| ProfileTemplates.TemplateStorage.constructor | services/templateService.ts:4-8 | the storage key starts absent |
| ProfileTemplates.TemplateStorage.Save | services/templateService.ts:38-49 | the stored list becomes the loaded list without the template's id, with the template pushed; it then holds that id exactly once, last |
| ProfileTemplates.TemplateStorage.Delete | services/templateService.ts:54-64 | the stored list becomes the loaded list without the id, and no template keeps that id |
| ProfileTemplates.TemplateFromBlocks | services/templateService.ts:69-90 | the template has the fresh id, the name and description, is not a default, is stamped with the email and time, and copies every block under a new id, order unchanged |
| ProfileTemplates.ApplyTemplate | services/templateService.ts:95-101 | one block per template block, each with a new id, its position as order, and its kind, title, content and size copied |
| ProfileTemplates.ApplyTemplateIds | services/templateService.ts:95-101 | with distinct fresh ids the applied blocks have distinct ids, and applying twice gives the same blocks up to ids |
| ProfileTemplates.CreateThenApply | services/templateService.ts:69-101 | a template made from blocks and then applied gives those blocks back, renumbered by position |
| LawyerUpload.FirstRule | scripts/uploadToFirebase.cjs:74-83 | the specialty is that of the first rule one of whose keywords occurs, or general practice when none does |
| LawyerUpload.SpecialtyRuleHits | scripts/uploadToFirebase.cjs:74-81 | the eight rules fire on exactly the keywords of the source, rule by rule |
| LawyerUpload.MapSpecialtyRules | scripts/uploadToFirebase.cjs:70-84 | an empty specialty is general practice; otherwise the if-chain is first-match over the rule table on the lower-cased, trimmed text |
| LawyerUpload.SpecialtyText | scripts/uploadToFirebase.cjs:125 | `spLibelle1 \|\| spLibelle2 \|\| spLibelle3`: empty exactly when all three are, else one of them |
| LawyerUpload.GetCoordinatesSpec | scripts/uploadToFirebase.cjs:86-90 | the centre of France exactly for a missing city or one outside the table; a listed city gets its own entry |
| LawyerUpload.City | scripts/uploadToFirebase.cjs:126-127 | `cbVille \|\| Barreau`: the city when set, else the bar |
| LawyerUpload.LocationBonus | scripts/uploadToFirebase.cjs:122 | the location bonus is 0 or 100 |
| LawyerUpload.RoundToTenNearest | scripts/uploadToFirebase.cjs:123 | `Math.round(x / 10) * 10` is the multiple of ten nearest to `x`, halves going up |
| LawyerUpload.HourlyRateSpec | scripts/uploadToFirebase.cjs:119-123 | the rate is the raw rate rounded to ten, a major bar adds exactly 100, and with 5 to 29 years it lies between 180 and 400 |
| LawyerUpload.DomainKept | scripts/uploadToFirebase.cjs:134 | the domain survives the character filter |
| LawyerUpload.FilteredEmailText | scripts/uploadToFirebase.cjs:134 | the filter keeps only `[a-z0-9.@]` |
| LawyerUpload.EmailSpec | scripts/uploadToFirebase.cjs:134 | the email holds only allowed characters: the kept characters of each lower-cased name part, a dot and the domain |
| LawyerUpload.TrimmedPiece | scripts/uploadToFirebase.cjs:141 | a non-empty trimmed piece of the split is a clean language |
| LawyerUpload.DefaultLanguageShape | scripts/uploadToFirebase.cjs:141 | the default language is a clean language |
| LawyerUpload.LanguagesSpec | scripts/uploadToFirebase.cjs:141 | an empty cell gives French, and every language is non-empty, trimmed and free of separators |
| LawyerUpload.LanguageAt | scripts/uploadToFirebase.cjs:141 | each language of a non-empty cell is a clean trimmed piece |
| LawyerUpload.FirmName | scripts/uploadToFirebase.cjs:147-149 | the firm name is set exactly when it is not blank, and then as given |
| LawyerUpload.Numbered | scripts/uploadToFirebase.cjs:116-154 | the k-th kept row is built with number k and the k-th drawn experience |
| LawyerUpload.Uploads | scripts/uploadToFirebase.cjs:116-154 | one write per kept row, never more than rows |
| LawyerUpload.NumberedStep | scripts/uploadToFirebase.cjs:116-154 | one more row adds its record, numbered by the records before it, exactly when it is kept |
| LawyerUpload.EntryShape | scripts/uploadToFirebase.cjs:129-152 | every record is a lawyer stored under its own `lawyer_` id, with the drawn experience, a rate rounded to ten and an address at the fixed domain |
| LawyerUpload.UploadsSpec | scripts/uploadToFirebase.cjs:116-154 | the k-th upload is built from the k-th kept row, with number k |
| LawyerUpload.UploadLawyers | scripts/uploadToFirebase.cjs:95-186 | the batches, read in order, are every record of the kept rows; the total counts them; every batch holds 500 writes except a shorter, non-empty last one |
| LawyerUpload.UploadInBatches | scripts/uploadToFirebase.cjs:111-176 | the loop, for any filter and builder, sends every built record once, in order, in full batches of 500 and a non-empty last one |
| LawyerUpload.AddWrite | scripts/uploadToFirebase.cjs:152-169 | one write joins the open batch, which is sent once it holds 500 |
| LawyerUpload.BatchCount | scripts/uploadToFirebase.cjs:157-176 | full batches and a non-empty last one are exactly `ceil(total / 500)` many |
| LawyerUpload.FullBatchesLength | scripts/uploadToFirebase.cjs:157-169 | full batches hold 500 writes each |
| VertexSearch.Configure | rag-juridique/rag/vertex_search.py:42-57 | the client is built exactly when the project id and the data store id, after falling back to the settings, are both non-empty; given ids are kept; a non-global location gets a regional endpoint |
| VertexSearch.DirectMetadata | rag-juridique/rag/vertex_search.py:187-197 | the direct-format metadata has exactly the nine listed keys, each read from the record or empty |
| VertexSearch.ExtractDocument | rag-juridique/rag/vertex_search.py:160-229 | a record with `content` is read in the direct format; one with only `jsonData` gives a document exactly when the JSON decodes; any other keeps the whole record as metadata; the id and score are the hit's |
| VertexSearch.ExtractedDocs | rag-juridique/rag/vertex_search.py:117-121 | never more documents than hits |
| VertexSearch.ExtractedDocsMembers | rag-juridique/rag/vertex_search.py:117-121 | every document a hit gives is kept, and every kept document comes from a hit |
| VertexSearch.DirectHitsAllKept | rag-juridique/rag/vertex_search.py:117-121 | when every hit is in the direct format, none is dropped |
| VertexSearch.Search | rag-juridique/rag/vertex_search.py:112-128 | the result is the documents extracted from the service's hits, or the service's error passed on |
| VertexSearch.Clause | rag-juridique/rag/vertex_search.py:281 | a clause is never empty |
| VertexSearch.Clauses | rag-juridique/rag/vertex_search.py:264-281 | one clause per given criterion, the code clause first when a code is given |
| VertexSearch.ExtraClauses | rag-juridique/rag/vertex_search.py:279-281 | one `key="value"` clause per extra criterion, in order |
| VertexSearch.BuildClauses | rag-juridique/rag/vertex_search.py:264-281 | the loop builds exactly the clause list |
| VertexSearch.AddExtraClauses | rag-juridique/rag/vertex_search.py:279-281 | the loop appends the extra clauses, in order, after the fixed ones |
| VertexSearch.JoinEmpty | rag-juridique/rag/vertex_search.py:283 | joining non-empty clauses gives the empty string exactly when there are none |
| VertexSearch.JoinStartsWithFirst | rag-juridique/rag/vertex_search.py:283 | the joined expression starts with its first clause |
| VertexSearch.FilterExpressionShape | rag-juridique/rag/vertex_search.py:264-283 | the expression is empty exactly when no criterion is given, and starts with the code clause when a code is given |
| VertexSearch.FilterByMetadata | rag-juridique/rag/vertex_search.py:231-287 | searches with the built expression: the extracted documents, or the service's error |

## Left out

- I/O and services: the search index, the language models, Firebase/Firestore, the Google, Microsoft and Daily HTTP APIs, and PDF/DOCX text extraction are function-typed parameters or pre-computed inputs. Their failures are `Err` values. Logging, sleeps and `process.exit` are not modelled.
- Clocks and randomness: `datetime.now()`, `Date.now()` and `Math.random()` are parameters, and so are the ids generated from them. Dates are integers: days for the Python date comparisons, milliseconds for the TypeScript instants. Time zones and daylight-saving changes are not modelled. `localeCompare` is taken as code-unit order.
- `datetime.fromisoformat` and `new Date(string)` are given pre-parsed: as an optional integer carried beside the raw string, or, for the transcript pipeline's appointment date, as absent, invalid or an instant. The audit's amendment dates also carry their `strftime('%d/%m/%Y')` rendering with the parse.
- Regular expressions in the audit engine: the seven recognizers are an input listing each one's matches in `finditer` order, with the start, end and groups of each match. The model proves what is built from those matches, not how the patterns match.
- Floating point: `formatFileSize` and the `_estimate_success_probability` heuristic of the search post-processing are not modelled. Ratios and confidences are `real`.
- Parts of the front-end services outside the modelled core are not modelled:
  - documentService's get-by-id, update, visibility toggle, summary, note and delete;
  - googleCalendarService's event create, update and delete, token refresh and token encryption.
- Strings.IsSpace: `str.strip()` and JavaScript `trim()` also remove the wider Unicode white space (U+2003 and the like). The model knows the ASCII and Latin-1 white space only, so content made only of U+2003 counts as missing for Python but not for the model.
- Strings.LowerChar: lower-casing is ASCII and Latin-1 only. Characters such as "İ" lower-case differently in Python and JavaScript than in the model.
- LawyerUpload.EmailSpec: built on `Strings.LowerChar`, so a name holding a character outside Latin-1 that lower-cases into `[a-z]` (such as "İ") keeps a letter in the source that the model drops.
- LawyerUpload.UploadLawyers: a batch is modelled as the sequence of its writes. The source's batch is an object keyed by `lawyers/<id>`, so two kept rows with the same SIRET in one batch leave a single entry, the later one. The counters still count both rows.
- LawyerRegistration.ValidateStepSpec: lengths are counted in characters. JavaScript's `.length` counts UTF-16 code units, so characters outside the Basic Multilingual Plane (emoji) count twice there. For example, a 30-emoji bio passes the "at least 50" test in the source and fails in the model. The same applies to the password test (at least 8).
- StylePresets.IsLightColorOfRgb: the source compares the double `(0.299 r + 0.587 g + 0.114 b) / 255` with 0.5. The model compares the integers `299 r + 587 g + 114 b` and `127500`, which gives the same answer except when the integer sum is exactly 127500. For example, on "#da3af8" rounding makes the source answer "light" and the model answer "not light", and `shouldUseLightText` differs accordingly.
- StylePresets.ParseHex: reads hex digits only. `parseInt(s, 16)` also skips leading white space and accepts a sign and a `0x` prefix.
- Checkpointing.ErrorRate: the exact quotient. The statistics report it rounded to two decimals with `round(…, 2)`, and that rounding is not modelled.
- PdfStyle.CollectFontsAndSizes: sizes are kept exact. The source rounds each one with `round(size, 1)` before adding it to the set, so two sizes that round alike count once there.
- JsonlValidation.ValidateFile: a file that cannot be opened is `None`. A read or decoding failure partway through a file is not modelled.
- JsonlFix.FixFile: a file that cannot be opened is `None`. A read or decoding failure partway through a file is not modelled.
- GoogleCalendar.AvailableSlots: requires a positive slot interval. With an interval of zero or less the source never returns (see Findings).
- GoogleCalendar.AvailabilityRule: the hours of a slot are read with a digits-only `Number()`. JavaScript's `Number()` also accepts " 8", "8.5" and "-1".
- SyntheseStrategie.FailureMessage: the exception's text is given with the failed generation, standing for `str(e)` of the Python exception; how an exception renders itself is not modelled.
- SyntheseStrategie.KeyPointOf: `str.isdigit()` is modelled over Latin-1 (the ASCII digits and ¹²³). Digits of other scripts, such as the Arabic-Indic ones, are not recognised as a numbered marker.
- Strings.UpperOf: `toUpperCase()` and `str.upper()` are modelled for ASCII and Latin-1, for `ı`, `ſ` and `ß`, and for the ligatures ﬀ to ﬆ. Other letters outside Latin-1 (Greek, Cyrillic, Latin Extended) are kept as they are. Their true upper cases are not Latin-1 either, so the city and bar lookups match no table entry in both cases.
- Diligence.FormatDurationReadsBack: takes a natural number of seconds. The source can render a negative elapsed time (a clock set back), for example "-1:-1:-5".
- Diligence.EntryOf: `billable: null` in a stored document is not modelled. The model's field is a present or absent boolean.
- ProfileTemplates.TemplateStorage.Save: the storage holds nothing, unparsable text or a template list. A stored JSON `null` or other non-list JSON is returned as-is by `loadCustomTemplates`, and makes saving and deleting throw. That case is not modelled.

## Findings

| source | as written | input that shows it | evidently intended | confidence | as-written member | corrected member |
|---|---|---|---|---|---|---|
| services/googleCalendarService.ts:273-297 | each round advances the candidate start by `slotInterval * 60000` ms, so with `slotInterval <= 0` the day's `while` loop never ends | `slotInterval = 0` with a range start before its end and before 19:00 | a positive interval (the default is 15 minutes) | not executed | GoogleCalendar.NonPositiveIntervalNeverEnds | GoogleCalendar.PositiveIntervalEnds |
