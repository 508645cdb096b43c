/**
 * The search-index client (rag-juridique/rag/vertex_search.py): its configuration checks,
 * the extraction of a document from each search hit, whichever of the three record shapes
 * it has, and the filter expression built from metadata criteria.
 *
 * The search service itself is a parameter: a function from the query and the filter
 * expression to the hits, or to an error. The JSON decoder of the legacy `jsonData` field
 * is a parameter too, answering `None` for text it cannot decode into an object.
 */
module VertexSearch {
  import opened Wrappers
  import opened Strings

  /** A search hit: the document id, its relevance score when there is one, and the
      document's structured fields. */
  datatype SearchHit = SearchHit(id: string, relevanceScore: Option<real>, structData: map<string, string>)

  /** The legacy `jsonData` payload once decoded. */
  datatype JsonDoc = JsonDoc(content: Option<string>, title: Option<string>, metadata: Option<map<string, string>>)

  /** A document as the client returns it. */
  datatype SearchDoc = SearchDoc(
    id: string,
    score: Option<real>,
    content: string,
    title: string,
    metadata: map<string, string>)

  /** The client's settings after defaults are applied. */
  datatype ClientConfig = ClientConfig(projectId: string, location: string, datastoreId: string, endpoint: string)

  /** The metadata keys of the direct-field format. */
  const DirectMetadataKeys: seq<string> :=
    ["code_id", "code_name", "type", "article_num", "etat", "date_debut", "date_fin", "breadcrumb", "source"]

  const GlobalEndpoint: string := "discoveryengine.googleapis.com"

  /** `x or default` on strings. */
  function OrDefault(x: string, default: string): string {
    if x != "" then x else default
  }

  /**
   * The constructor: each argument falls back to its setting; the client is refused when
   * the project id or the data store id is still empty. A non-global location gets its
   * regional endpoint.
   */
  function Configure(projectId: string, location: string, datastoreId: string,
                     settingsProject: string, settingsLocation: string, settingsDatastore: string)
    : (r: Result<ClientConfig, string>)
    ensures r.Ok? <==> OrDefault(projectId, settingsProject) != "" && OrDefault(datastoreId, settingsDatastore) != ""
    ensures r.Ok? ==> r.value.projectId != "" && r.value.datastoreId != ""
    ensures r.Ok? && projectId != "" ==> r.value.projectId == projectId
    ensures r.Ok? && datastoreId != "" ==> r.value.datastoreId == datastoreId
    ensures r.Ok? && r.value.location == "global" ==> r.value.endpoint == GlobalEndpoint
    ensures r.Ok? && r.value.location != "global" ==> EndsWith(r.value.endpoint, "-" + GlobalEndpoint)
  {
    var p := OrDefault(projectId, settingsProject);
    var l := OrDefault(location, settingsLocation);
    var d := OrDefault(datastoreId, settingsDatastore);
    if p == "" || d == "" then Err("project_id et datastore_id doivent être définis")
    else
      var endpoint := if l != "global" then l + "-" + GlobalEndpoint else GlobalEndpoint;
      assert l != "global" ==> endpoint[|endpoint| - |"-" + GlobalEndpoint|..] == "-" + GlobalEndpoint;
      Ok(ClientConfig(p, l, d, endpoint))
  }

  /** `mapping.get(key, "")`. */
  function GetOrEmpty(m: map<string, string>, key: string): string {
    if key in m then m[key] else ""
  }

  /** The metadata of the direct-field format: each listed key, "" when absent. */
  function DirectMetadata(sd: map<string, string>): (r: map<string, string>)
    ensures r.Keys == set k | k in DirectMetadataKeys
    ensures forall k :: k in r ==> r[k] == GetOrEmpty(sd, k)
  {
    map k | k in DirectMetadataKeys :: GetOrEmpty(sd, k)
  }

  /**
   * `_extract_document_data`: a record with a `content` field is in the direct format;
   * else one with `jsonData` is decoded (and gives nothing when decoding fails); else the
   * whole record becomes the metadata.
   */
  function ExtractDocument(hit: SearchHit, decode: string -> Option<JsonDoc>): (r: Option<SearchDoc>)
    ensures r.Some? ==> r.value.id == hit.id && r.value.score == hit.relevanceScore
    ensures "content" in hit.structData ==>
      && r.Some?
      && r.value.content == hit.structData["content"]
      && r.value.title == GetOrEmpty(hit.structData, "title")
      && r.value.metadata.Keys == set k | k in DirectMetadataKeys
    ensures "content" !in hit.structData && "jsonData" in hit.structData ==>
      (r.None? <==> decode(hit.structData["jsonData"]).None?)
    ensures "content" !in hit.structData && "jsonData" in hit.structData && decode(hit.structData["jsonData"]).Some? ==>
      var j := decode(hit.structData["jsonData"]).value;
      && r.Some?
      && r.value.content == j.content.GetOr("")
      && r.value.title == j.title.GetOr("")
      && r.value.metadata == j.metadata.GetOr(map[])
    ensures "content" !in hit.structData && "jsonData" !in hit.structData ==>
      && r.Some?
      && r.value.content == ""
      && r.value.title == GetOrEmpty(hit.structData, "title")
      && r.value.metadata == hit.structData
  {
    var sd := hit.structData;
    if "content" in sd then
      Some(SearchDoc(hit.id, hit.relevanceScore, sd["content"], GetOrEmpty(sd, "title"), DirectMetadata(sd)))
    else if "jsonData" in sd then
      match decode(sd["jsonData"])
      case None => None
      case Some(j) =>
        Some(SearchDoc(hit.id, hit.relevanceScore, j.content.GetOr(""), j.title.GetOr(""), j.metadata.GetOr(map[])))
    else
      Some(SearchDoc(hit.id, hit.relevanceScore, GetOrEmpty(sd, "content"), GetOrEmpty(sd, "title"), sd))
  }

  /** The documents extracted from the hits, in order, leaving out the hits that give none. */
  function ExtractedDocs(hits: seq<SearchHit>, decode: string -> Option<JsonDoc>): (r: seq<SearchDoc>)
    decreases |hits|
    ensures |r| <= |hits|
  {
    if hits == [] then []
    else
      var init := ExtractedDocs(hits[..|hits| - 1], decode);
      match ExtractDocument(hits[|hits| - 1], decode)
      case None => init
      case Some(d) => init + [d]
  }

  /** Every hit that gives a document contributes it, and every document comes from a hit. */
  lemma {:induction false} ExtractedDocsMembers(hits: seq<SearchHit>, decode: string -> Option<JsonDoc>)
    decreases |hits|
    ensures forall i :: 0 <= i < |hits| && ExtractDocument(hits[i], decode).Some? ==>
      ExtractDocument(hits[i], decode).value in ExtractedDocs(hits, decode)
    ensures forall d :: d in ExtractedDocs(hits, decode) ==>
      exists i :: 0 <= i < |hits| && ExtractDocument(hits[i], decode) == Some(d)
  {
    if hits != [] {
      var init := hits[..|hits| - 1];
      ExtractedDocsMembers(init, decode);
      forall i | 0 <= i < |hits| && ExtractDocument(hits[i], decode).Some?
        ensures ExtractDocument(hits[i], decode).value in ExtractedDocs(hits, decode)
      {
        if i < |init| {
          assert hits[i] == init[i];
        }
      }
      forall d | d in ExtractedDocs(hits, decode)
        ensures exists i :: 0 <= i < |hits| && ExtractDocument(hits[i], decode) == Some(d)
      {
        if d in ExtractedDocs(init, decode) {
          var i :| 0 <= i < |init| && ExtractDocument(init[i], decode) == Some(d);
          assert hits[i] == init[i];
        } else {
          assert ExtractDocument(hits[|hits| - 1], decode) == Some(d);
        }
      }
    }
  }

  /** Hits in the direct-field format are never dropped, so when every hit has a
      `content` field there are as many documents as hits. */
  lemma {:induction false} DirectHitsAllKept(hits: seq<SearchHit>, decode: string -> Option<JsonDoc>)
    requires forall i :: 0 <= i < |hits| ==> "content" in hits[i].structData
    decreases |hits|
    ensures |ExtractedDocs(hits, decode)| == |hits|
  {
    if hits != [] {
      DirectHitsAllKept(hits[..|hits| - 1], decode);
    }
  }

  /** `search`: runs the query and keeps the documents extracted from the hits; an error of
      the service is passed on. */
  method Search(query: string, filter: string,
                service: (string, string) -> Result<seq<SearchHit>, string>,
                decode: string -> Option<JsonDoc>)
    returns (r: Result<seq<SearchDoc>, string>)
    ensures service(query, filter).Err? ==> r == Err(service(query, filter).error)
    ensures service(query, filter).Ok? ==> r == Ok(ExtractedDocs(service(query, filter).value, decode))
  {
    var response := service(query, filter);
    if response.Err? {
      return Err(response.error);
    }
    var hits := response.value;
    var results: seq<SearchDoc> := [];
    for i := 0 to |hits|
      invariant results == ExtractedDocs(hits[..i], decode)
    {
      assert hits[..i + 1][..i] == hits[..i];
      var doc := ExtractDocument(hits[i], decode);
      if doc.Some? {
        results := results + [doc.value];
      }
    }
    assert hits[..|hits|] == hits;
    r := Ok(results);
  }

  // ---------------------------------------------------------------------------
  // Metadata filters
  // ---------------------------------------------------------------------------

  /** One equality clause `key="value"`. */
  function Clause(key: string, value: string): (r: string)
    ensures r != []
  {
    key + "=\"" + value + "\""
  }

  /** The clauses of a filter, in their order: code, state, minimum start date, then the
      extra criteria in the order given; empty criteria are skipped. */
  function Clauses(codeId: string, etat: string, dateDebutMin: string, extra: seq<(string, string)>): (r: seq<string>)
    ensures forall i :: 0 <= i < |r| ==> r[i] != []
    ensures |r| == (if codeId != "" then 1 else 0) + (if etat != "" then 1 else 0)
      + (if dateDebutMin != "" then 1 else 0) + |extra|
    ensures codeId != "" ==> r[0] == Clause("code_id", codeId)
  {
    (if codeId != "" then [Clause("code_id", codeId)] else [])
    + (if etat != "" then [Clause("etat", etat)] else [])
    + (if dateDebutMin != "" then ["date_debut>=\"" + dateDebutMin + "\""] else [])
    + ExtraClauses(extra)
  }

  function ExtraClauses(extra: seq<(string, string)>): (r: seq<string>)
    decreases |extra|
    ensures |r| == |extra|
    ensures forall i :: 0 <= i < |r| ==> r[i] == Clause(extra[i].0, extra[i].1)
  {
    if extra == [] then []
    else ExtraClauses(extra[..|extra| - 1]) + [Clause(extra[|extra| - 1].0, extra[|extra| - 1].1)]
  }

  /** The clause list of `filter_by_metadata`, built as it is there. */
  method BuildClauses(codeId: string, etat: string, dateDebutMin: string, extra: seq<(string, string)>)
    returns (filters: seq<string>)
    ensures filters == Clauses(codeId, etat, dateDebutMin, extra)
  {
    filters := [];
    if codeId != "" {
      filters := filters + [Clause("code_id", codeId)];
    }
    if etat != "" {
      filters := filters + [Clause("etat", etat)];
    }
    if dateDebutMin != "" {
      filters := filters + ["date_debut>=\"" + dateDebutMin + "\""];
    }
    filters := AddExtraClauses(filters, extra);
  }

  /** The loop over the extra criteria, appending one clause each, in order. */
  method AddExtraClauses(fixed: seq<string>, extra: seq<(string, string)>) returns (filters: seq<string>)
    ensures filters == fixed + ExtraClauses(extra)
  {
    filters := fixed;
    for i := 0 to |extra|
      invariant filters == fixed + ExtraClauses(extra[..i])
    {
      assert extra[..i + 1][..i] == extra[..i];
      filters := filters + [Clause(extra[i].0, extra[i].1)];
    }
    assert extra[..|extra|] == extra;
  }

  /** The filter expression: the clauses joined with " AND ". */
  function FilterExpression(codeId: string, etat: string, dateDebutMin: string, extra: seq<(string, string)>): string {
    Join(Clauses(codeId, etat, dateDebutMin, extra), " AND ")
  }

  lemma JoinEmpty(parts: seq<string>, sep: string)
    requires forall i :: 0 <= i < |parts| ==> parts[i] != []
    ensures Join(parts, sep) == "" <==> parts == []
  {
    if |parts| > 1 {
      assert |Join(parts, sep)| >= |parts[0]|;
    }
  }

  lemma {:induction false} JoinStartsWithFirst(parts: seq<string>, sep: string)
    requires parts != []
    ensures StartsWith(Join(parts, sep), parts[0])
  {
    if |parts| > 1 {
      var j := Join(parts, sep);
      assert j == parts[0] + (sep + Join(parts[1..], sep));
      assert j[..|parts[0]|] == parts[0];
    }
  }

  /**
   * The expression is empty exactly when no criterion is given; when a code is given the
   * expression starts with its clause.
   */
  lemma FilterExpressionShape(codeId: string, etat: string, dateDebutMin: string, extra: seq<(string, string)>)
    ensures FilterExpression(codeId, etat, dateDebutMin, extra) == "" <==>
      codeId == "" && etat == "" && dateDebutMin == "" && extra == []
    ensures codeId != "" ==>
      StartsWith(FilterExpression(codeId, etat, dateDebutMin, extra), Clause("code_id", codeId))
  {
    var clauses := Clauses(codeId, etat, dateDebutMin, extra);
    JoinEmpty(clauses, " AND ");
    if codeId != "" {
      JoinStartsWithFirst(clauses, " AND ");
    }
  }

  /** `filter_by_metadata`: builds the expression and searches with it. */
  method FilterByMetadata(query: string, codeId: string, etat: string, dateDebutMin: string,
                          extra: seq<(string, string)>,
                          service: (string, string) -> Result<seq<SearchHit>, string>,
                          decode: string -> Option<JsonDoc>)
    returns (r: Result<seq<SearchDoc>, string>)
    ensures var filter := FilterExpression(codeId, etat, dateDebutMin, extra);
      && (service(query, filter).Err? ==> r == Err(service(query, filter).error))
      && (service(query, filter).Ok? ==> r == Ok(ExtractedDocs(service(query, filter).value, decode)))
  {
    var filters := BuildClauses(codeId, etat, dateDebutMin, extra);
    var expression := if filters != [] then Join(filters, " AND ") else "";
    r := Search(query, expression, service, decode);
  }
}
