/**
 * The bulk ingester of legal codes (rag-juridique/ingestion/ingestion_massive.py): the
 * table of codes, the run over one code or over all of them by priority, the fallback
 * over ingestion strategies, the window taken from the DILA download, the article records
 * and the built-in list of essential articles of the civil code.
 *
 * Downloads, file parsing, the checkpoint files and the JSONL export are outside the model:
 * what a strategy returns for a code is a parameter (an article list, or `Err` for an
 * exception), and so are the DILA client's answer and the table of essential articles.
 */
module MassiveIngestion {
  import opened Wrappers
  import opened Strings

  /** One entry of the table of codes. */
  datatype CodeInfo = CodeInfo(key: string, id: string, name: string, articlesCount: nat, priority: int)

  /** The codes, in the table's order. */
  const Codes: seq<CodeInfo> := [
    CodeInfo("civil", "LEGITEXT000006070721", "Code civil", 8000, 1),
    CodeInfo("penal", "LEGITEXT000006070716", "Code pénal", 5000, 2),
    CodeInfo("travail", "LEGITEXT000006072050", "Code du travail", 10000, 3),
    CodeInfo("commerce", "LEGITEXT000005634379", "Code de commerce", 3000, 4),
    CodeInfo("procedure_civile", "LEGITEXT000006070716", "Code de procédure civile", 2000, 5),
    CodeInfo("procedure_penale", "LEGITEXT000006071164", "Code de procédure pénale", 2000, 6),
    CodeInfo("securite_sociale", "LEGITEXT000006073189", "Code de la sécurité sociale", 5000, 7)
  ]

  /** The table entry for `key`, if there is one. */
  function FindCode(codes: seq<CodeInfo>, key: string): (r: Option<CodeInfo>)
    ensures r.Some? ==> r.value in codes && r.value.key == key
    ensures r.None? <==> forall c :: c in codes ==> c.key != key
  {
    if codes == [] then None
    else if codes[0].key == key then Some(codes[0])
    else FindCode(codes[1..], key)
  }

  // ---------------------------------------------------------------------------
  // Ordering by priority
  // ---------------------------------------------------------------------------

  predicate ByPriority(codes: seq<CodeInfo>) {
    forall i, j :: 0 <= i < j < |codes| ==> codes[i].priority <= codes[j].priority
  }

  function InsertByPriority(codes: seq<CodeInfo>, c: CodeInfo): (r: seq<CodeInfo>)
    requires ByPriority(codes)
    ensures ByPriority(r)
    ensures multiset(r) == multiset(codes) + multiset{c}
    ensures r[0] == c || (codes != [] && r[0] == codes[0])
  {
    if codes == [] || c.priority <= codes[0].priority then
      ConsByPriority(c, codes);
      [c] + codes
    else
      var rest := InsertByPriority(codes[1..], c);
      assert [codes[0]] + codes[1..] == codes;
      ConsByPriority(codes[0], rest);
      [codes[0]] + rest
  }

  /** An entry no later than the head of an ordered list can go in front of it. */
  lemma ConsByPriority(x: CodeInfo, rest: seq<CodeInfo>)
    requires ByPriority(rest)
    requires rest == [] || x.priority <= rest[0].priority
    ensures ByPriority([x] + rest)
  {
  }

  /** Python's `sorted(CODES.items(), key=priority)`. */
  function SortByPriority(codes: seq<CodeInfo>): (r: seq<CodeInfo>)
    ensures ByPriority(r)
    ensures multiset(r) == multiset(codes)
  {
    if codes == [] then []
    else
      assert codes == [codes[0]] + codes[1..];
      InsertByPriority(SortByPriority(codes[1..]), codes[0])
  }

  // ---------------------------------------------------------------------------
  // Articles
  // ---------------------------------------------------------------------------

  /** An article record in the search index's direct-field format (its ingestion time
      stamp is not modelled). */
  datatype Article = Article(
    id: string,
    content: string,
    title: string,
    codeId: string,
    codeName: string,
    kind: string,
    nature: string,
    articleId: string,
    articleNum: string,
    breadcrumb: string,
    etat: string,
    dateDebut: string,
    dateFin: string,
    source: string)

  const DefaultDateDebut: string := "1804-02-07"
  const DefaultEtat: string := "VIGUEUR"

  /** The article record `_create_article` builds. */
  function CreateArticle(info: CodeInfo, articleId: string, num: string, content: string,
                         breadcrumb: string, dateDebut: string, dateFin: Option<string>,
                         etat: string, source: string): Article
  {
    var title := "Article " + num;
    Article(articleId, content, title, info.id, info.name, "article_code", "CODE",
            articleId, num, if breadcrumb != "" then breadcrumb else info.name + " > " + title,
            etat, dateDebut, dateFin.GetOr(""), source)
  }

  /**
   * An article record's title is "Article <num>"; an empty breadcrumb becomes
   * "<code name> > Article <num>", so the breadcrumb is never empty and ends with the
   * title or with the breadcrumb given; a missing end date becomes "".
   */
  lemma CreateArticleFacts(info: CodeInfo, articleId: string, num: string, content: string,
                           breadcrumb: string, dateDebut: string, dateFin: Option<string>,
                           etat: string, source: string)
    ensures var a := CreateArticle(info, articleId, num, content, breadcrumb, dateDebut, dateFin, etat, source);
      && a.id == articleId && a.articleId == articleId && a.articleNum == num
      && a.title == "Article " + num && a.content == content
      && a.codeId == info.id && a.codeName == info.name
      && a.kind == "article_code" && a.nature == "CODE"
      && (breadcrumb != "" ==> a.breadcrumb == breadcrumb)
      && (breadcrumb == "" ==> a.breadcrumb == info.name + " > " + a.title)
      && a.breadcrumb != ""
      && EndsWith(a.breadcrumb, if breadcrumb == "" then a.title else breadcrumb)
      && a.dateFin == dateFin.GetOr("")
      && a.dateDebut == dateDebut && a.etat == etat && a.source == source
  {
    var a := CreateArticle(info, articleId, num, content, breadcrumb, dateDebut, dateFin, etat, source);
    if breadcrumb == "" {
      assert a.breadcrumb == (info.name + " > ") + a.title;
    }
  }

  // ---------------------------------------------------------------------------
  // The DILA strategy
  // ---------------------------------------------------------------------------

  /** An article as the DILA client returns it; the optional fields may be absent. */
  datatype RawArticle = RawArticle(
    id: string,
    num: string,
    content: string,
    breadcrumb: Option<string>,
    dateDebut: Option<string>,
    dateFin: Option<string>,
    etat: Option<string>)

  /** `max_articles` is a limit when it is given and not 0. */
  predicate Limited(maxArticles: Option<int>) {
    maxArticles.Some? && maxArticles.value != 0
  }

  /** Python's `s[:n]`, a negative `n` counting from the end. */
  function PyTake<T>(s: seq<T>, n: int): (r: seq<T>)
    ensures n >= 0 ==> |r| == if n < |s| then n else |s|
    ensures |r| <= |s| && r == s[..|r|]
  {
    if n >= |s| then s
    else if n >= 0 then s[..n]
    else if -n >= |s| then []
    else s[..|s| + n]
  }

  /** Python's `s[n:]` for `n > 0`. */
  function PyDrop<T>(s: seq<T>, n: nat): (r: seq<T>)
    ensures |r| == if n < |s| then |s| - n else 0
    ensures forall i :: 0 <= i < |r| ==> r[i] == s[n + i]
  {
    if n < |s| then s[n..] else []
  }

  /**
   * The part of the download kept: the first `startFrom` articles are dropped, then the
   * list is cut to `max_articles` when that is a limit.
   */
  function DilaWindow(raw: seq<RawArticle>, startFrom: int, maxArticles: Option<int>): (r: seq<RawArticle>)
    ensures |r| <= |raw|
    ensures startFrom >= 0 && !Limited(maxArticles) ==> r == PyDrop(raw, startFrom)
    ensures startFrom >= 0 && Limited(maxArticles) && maxArticles.value > 0 ==>
      && |r| == Min(maxArticles.value, |PyDrop(raw, startFrom)|)
      && forall i :: 0 <= i < |r| ==> r[i] == raw[startFrom + i]
  {
    var afterStart := if startFrom > 0 then PyDrop(raw, startFrom) else raw;
    assert startFrom == 0 ==> afterStart == PyDrop(raw, startFrom);
    if Limited(maxArticles) && |afterStart| > maxArticles.value then PyTake(afterStart, maxArticles.value)
    else afterStart
  }

  function Min(a: int, b: int): int {
    if a < b then a else b
  }

  /** The article record made from a DILA article, with the defaults of missing fields. */
  function FromRaw(info: CodeInfo, art: RawArticle, source: string): Article {
    CreateArticle(info, art.id, art.num, art.content, art.breadcrumb.GetOr(""),
                  art.dateDebut.GetOr(DefaultDateDebut), art.dateFin,
                  art.etat.GetOr(DefaultEtat), source)
  }

  const DilaSource: string := "DILA OPENDATA"

  /** One record per DILA article, in order. */
  function ArticlesFrom(info: CodeInfo, arts: seq<RawArticle>, source: string): (r: seq<Article>)
    decreases |arts|
    ensures |r| == |arts|
  {
    if arts == [] then []
    else ArticlesFrom(info, arts[..|arts| - 1], source) + [FromRaw(info, arts[|arts| - 1], source)]
  }

  lemma {:induction false} ArticlesFromEach(info: CodeInfo, arts: seq<RawArticle>, source: string)
    decreases |arts|
    ensures forall i :: 0 <= i < |arts| ==> ArticlesFrom(info, arts, source)[i] == FromRaw(info, arts[i], source)
  {
    if arts != [] {
      ArticlesFromEach(info, arts[..|arts| - 1], source);
    }
  }

  /**
   * The data.gouv.fr strategy. It asks the DILA client for the code, allowing
   * `max_articles + startFrom` articles when there is a limit, keeps the window and turns
   * each article into a record. A failed or empty download, or an empty window, gives no
   * articles (the data.gouv.fr listing that follows never yields any).
   */
  method TryDatagouv(info: CodeInfo, startFrom: int, maxArticles: Option<int>,
                     dila: (string, Option<int>) -> Result<seq<RawArticle>, string>)
    returns (articles: seq<Article>)
    ensures var download := dila(info.id, if Limited(maxArticles) then Some(maxArticles.value + startFrom) else None);
      && (download.Err? ==> articles == [])
      && (download.Ok? ==>
            var window := DilaWindow(download.value, startFrom, maxArticles);
            && articles == ArticlesFrom(info, window, DilaSource))
  {
    var limit := if Limited(maxArticles) then Some(maxArticles.value + startFrom) else None;
    var download := dila(info.id, limit);
    articles := [];
    if download.Ok? && download.value != [] {
      var window := DilaWindow(download.value, startFrom, maxArticles);
      articles := RecordsOf(info, window);
    } else if download.Ok? {
      assert DilaWindow(download.value, startFrom, maxArticles) == [];
    }
  }

  /** The loop of `_try_datagouv` turning each article of the window into a record. */
  method RecordsOf(info: CodeInfo, window: seq<RawArticle>) returns (articles: seq<Article>)
    ensures articles == ArticlesFrom(info, window, DilaSource)
  {
    articles := [];
    var i := 0;
    while i < |window|
      invariant 0 <= i <= |window|
      invariant articles == ArticlesFrom(info, window[..i], DilaSource)
    {
      articles := articles + [FromRaw(info, window[i], DilaSource)];
      assert window[..i + 1][..i] == window[..i];
      i := i + 1;
    }
    assert window[..i] == window;
  }

  // ---------------------------------------------------------------------------
  // The essential articles of the civil code
  // ---------------------------------------------------------------------------

  /** An entry of the built-in list of essential articles. */
  datatype EssentialEntry = EssentialEntry(
    num: string,
    content: string,
    breadcrumb: Option<string>,
    dateDebut: Option<string>,
    dateFin: Option<string>,
    etat: Option<string>)

  const EnrichedSource: string := "Dataset enrichi"

  /** The id of the essential article at `index`: the code id, "_ENRICHED_", and the index
      zero-padded to six digits. */
  function EnrichedId(info: CodeInfo, index: nat): string {
    info.id + "_ENRICHED_" + ZeroPad(NatToString(index), 6)
  }

  /** Two essential articles of the same code never share an id. */
  lemma EnrichedIdsDiffer(info: CodeInfo, i: nat, j: nat)
    requires i != j
    ensures EnrichedId(info, i) != EnrichedId(info, j)
  {
    PaddedNumbersDiffer(i, j, 6);
    var prefix := info.id + "_ENRICHED_";
    assert (prefix + ZeroPad(NatToString(i), 6))[|prefix|..] == ZeroPad(NatToString(i), 6);
    assert (prefix + ZeroPad(NatToString(j), 6))[|prefix|..] == ZeroPad(NatToString(j), 6);
  }

  function EssentialArticle(info: CodeInfo, entry: EssentialEntry, index: nat): Article {
    CreateArticle(info, EnrichedId(info, index), entry.num, entry.content,
                  entry.breadcrumb.GetOr("Code civil > Article " + entry.num),
                  entry.dateDebut.GetOr(DefaultDateDebut), entry.dateFin,
                  entry.etat.GetOr(DefaultEtat), EnrichedSource)
  }

  /** One record per essential entry, the index of each giving its id. */
  function EssentialArticles(info: CodeInfo, entries: seq<EssentialEntry>): (r: seq<Article>)
    decreases |entries|
    ensures |r| == |entries|
  {
    if entries == [] then []
    else
      var n := |entries| - 1;
      EssentialArticles(info, entries[..n]) + [EssentialArticle(info, entries[n], n)]
  }

  /** The record at index `i` is built from entry `i`, under the id of index `i`. */
  lemma {:induction false} EssentialArticlesEach(info: CodeInfo, entries: seq<EssentialEntry>)
    decreases |entries|
    ensures forall i :: 0 <= i < |entries| ==>
      EssentialArticles(info, entries)[i] == EssentialArticle(info, entries[i], i)
      && EssentialArticles(info, entries)[i].id == EnrichedId(info, i)
  {
    if entries != [] {
      EssentialArticlesEach(info, entries[..|entries| - 1]);
    }
  }

  /** The essential records never share an id. */
  lemma EssentialIdsDistinct(info: CodeInfo, entries: seq<EssentialEntry>)
    ensures var r := EssentialArticles(info, entries);
      forall i, j :: 0 <= i < j < |r| ==> r[i].id != r[j].id
  {
    EssentialArticlesEach(info, entries);
    var r := EssentialArticles(info, entries);
    forall i, j | 0 <= i < j < |r| ensures r[i].id != r[j].id {
      EnrichedIdsDiffer(info, i, j);
    }
  }

  /**
   * The essential articles, cut to `max_articles` when that is a limit smaller than the
   * list, each with the id built from its index.
   */
  method GetEssentialArticlesCivil(info: CodeInfo, essential: seq<EssentialEntry>, maxArticles: Option<int>)
    returns (articles: seq<Article>)
    ensures var kept := if Limited(maxArticles) && |essential| > maxArticles.value
                        then PyTake(essential, maxArticles.value) else essential;
      articles == EssentialArticles(info, kept)
    ensures Limited(maxArticles) && maxArticles.value > 0 ==> |articles| <= maxArticles.value
    ensures |articles| <= |essential|
  {
    var kept := essential;
    if Limited(maxArticles) && |kept| > maxArticles.value {
      kept := PyTake(kept, maxArticles.value);
    }
    articles := EssentialRecords(info, kept);
  }

  /** The loop of `_get_essential_articles_civil` building one record per kept entry. */
  method EssentialRecords(info: CodeInfo, kept: seq<EssentialEntry>) returns (articles: seq<Article>)
    ensures articles == EssentialArticles(info, kept)
  {
    articles := [];
    var idx := 0;
    while idx < |kept|
      invariant 0 <= idx <= |kept|
      invariant articles == EssentialArticles(info, kept[..idx])
    {
      articles := articles + [EssentialArticle(info, kept[idx], idx)];
      assert kept[..idx + 1][..idx] == kept[..idx];
      idx := idx + 1;
    }
    assert kept[..idx] == kept;
  }

  /** The generation strategy: the essential articles for the civil code, nothing for any
      other code. */
  method TryGenerateEnriched(codeKey: string, info: CodeInfo, essential: seq<EssentialEntry>,
                             maxArticles: Option<int>) returns (articles: seq<Article>)
    ensures codeKey != "civil" ==> articles == []
    ensures codeKey == "civil" ==> |articles| <= |essential|
  {
    if codeKey == "civil" {
      articles := GetEssentialArticlesCivil(info, essential, maxArticles);
    } else {
      articles := [];
    }
  }

  // ---------------------------------------------------------------------------
  // Strategy fallback and the run
  // ---------------------------------------------------------------------------

  /** What one strategy gave: its article list, or `Err` when it raised. */
  type Outcome = Result<seq<Article>, string>

  predicate Yields(o: Outcome) {
    o.Ok? && o.value != []
  }

  /** The first strategy that yields articles, if any. */
  function FirstYield(outcomes: seq<Outcome>): (r: Option<nat>)
    ensures r.Some? ==>
      && r.value < |outcomes| && Yields(outcomes[r.value])
      && forall k :: 0 <= k < r.value ==> !Yields(outcomes[k])
    ensures r.None? ==> forall k :: 0 <= k < |outcomes| ==> !Yields(outcomes[k])
  {
    if outcomes == [] then None
    else if Yields(outcomes[0]) then Some(0)
    else match FirstYield(outcomes[1..]) {
      case None => None
      case Some(k) => Some(k + 1)
    }
  }

  predicate Succeeds(outcomes: seq<Outcome>) {
    FirstYield(outcomes).Some?
  }

  /** The number of articles the first yielding strategy gave, 0 when none did. */
  function IngestedCount(outcomes: seq<Outcome>): nat {
    match FirstYield(outcomes) {
      case None => 0
      case Some(k) => |outcomes[k].value|
    }
  }

  /** Codes whose strategies all fail, among `codes`. */
  function Failures(codes: seq<CodeInfo>, outcomesFor: string -> seq<Outcome>): nat
    decreases |codes|
  {
    if codes == [] then 0
    else
      Failures(codes[..|codes| - 1], outcomesFor)
      + (if Succeeds(outcomesFor(codes[|codes| - 1].key)) then 0 else 1)
  }

  /** Articles ingested for `codes`. */
  function Ingested(codes: seq<CodeInfo>, outcomesFor: string -> seq<Outcome>): nat
    decreases |codes|
  {
    if codes == [] then 0
    else Ingested(codes[..|codes| - 1], outcomesFor) + IngestedCount(outcomesFor(codes[|codes| - 1].key))
  }

  lemma {:induction false} FailuresAtMost(codes: seq<CodeInfo>, outcomesFor: string -> seq<Outcome>)
    decreases |codes|
    ensures Failures(codes, outcomesFor) <= |codes|
  {
    if codes != [] {
      FailuresAtMost(codes[..|codes| - 1], outcomesFor);
    }
  }

  class MassiveIngester {
    /** The code asked for (`--code`), or none for all of them. */
    /** The table of codes (a class attribute of the ingester). */
    const codes: seq<CodeInfo>
    const codeName: Option<string>
    const maxArticles: Option<int>
    var totalArticles: nat
    var codesProcessed: nat
    var errors: nat

    constructor(codeName: Option<string>, maxArticles: Option<int>)
      ensures this.codeName == codeName && this.maxArticles == maxArticles && codes == Codes
      ensures totalArticles == 0 && codesProcessed == 0 && errors == 0
    {
      codes := Codes;
      this.codeName := codeName;
      this.maxArticles := maxArticles;
      totalArticles, codesProcessed, errors := 0, 0, 0;
    }

    /**
     * Tries the strategies in order and stops at the first that yields articles, adding
     * their number to the total; a strategy that raises is skipped. `tried` is how many
     * strategies ran.
     */
    method IngestCode(outcomes: seq<Outcome>) returns (success: bool, ghost tried: nat)
      modifies this
      ensures success == Succeeds(outcomes)
      ensures totalArticles == old(totalArticles) + IngestedCount(outcomes)
      ensures codesProcessed == old(codesProcessed) && errors == old(errors)
      ensures tried == if success then FirstYield(outcomes).value + 1 else |outcomes|
    {
      var i := 0;
      while i < |outcomes|
        invariant 0 <= i <= |outcomes|
        invariant forall k :: 0 <= k < i ==> !Yields(outcomes[k])
        invariant totalArticles == old(totalArticles)
      {
        var outcome := outcomes[i];
        if outcome.Ok? && outcome.value != [] {
          totalArticles := totalArticles + |outcome.value|;
          assert FirstYield(outcomes) == Some(i);
          return true, i + 1;
        }
        i := i + 1;
      }
      return false, i;
    }

    /** The loop over every code of `order`: each counts as processed, each whose
        strategies all fail counts as an error. */
    method IngestAll(order: seq<CodeInfo>, outcomesFor: string -> seq<Outcome>)
      modifies this
      ensures codesProcessed == old(codesProcessed) + |order|
      ensures errors == old(errors) + Failures(order, outcomesFor)
      ensures totalArticles == old(totalArticles) + Ingested(order, outcomesFor)
    {
      var i := 0;
      while i < |order|
        invariant 0 <= i <= |order|
        invariant codesProcessed == old(codesProcessed) + i
        invariant errors == old(errors) + Failures(order[..i], outcomesFor)
        invariant totalArticles == old(totalArticles) + Ingested(order[..i], outcomesFor)
      {
        var success;
        ghost var tried;
        success, tried := IngestCode(outcomesFor(order[i].key));
        if !success {
          errors := errors + 1;
        }
        codesProcessed := codesProcessed + 1;
        assert order[..i + 1][..i] == order[..i];
        i := i + 1;
      }
      assert order[..i] == order;
    }

    /**
     * One code when a name is given (false when it is not in the table; the counters of
     * processed codes and errors are untouched), otherwise every code by ascending
     * priority: each counts as processed, each whose strategies all fail counts as an
     * error, and the run reports success.
     */
    method Run(outcomesFor: string -> seq<Outcome>) returns (ok: bool)
      modifies this
      ensures codeName.Some? && codeName.value != "" && FindCode(codes, codeName.value).None? ==>
        !ok && totalArticles == old(totalArticles)
        && codesProcessed == old(codesProcessed) && errors == old(errors)
      ensures codeName.Some? && codeName.value != "" && FindCode(codes, codeName.value).Some? ==>
        ok == Succeeds(outcomesFor(codeName.value))
        && totalArticles == old(totalArticles) + IngestedCount(outcomesFor(codeName.value))
        && codesProcessed == old(codesProcessed) && errors == old(errors)
      ensures codeName.None? || codeName.value == "" ==>
        var order := SortByPriority(codes);
        && ok
        && codesProcessed == old(codesProcessed) + |codes|
        && errors == old(errors) + Failures(order, outcomesFor)
        && totalArticles == old(totalArticles) + Ingested(order, outcomesFor)
    {
      if codeName.Some? && codeName.value != "" {
        if FindCode(codes, codeName.value).None? {
          return false;
        }
        ghost var tried;
        ok, tried := IngestCode(outcomesFor(codeName.value));
        return;
      }
      var order := SortByPriority(codes);
      assert |order| == |multiset(order)| == |multiset(codes)| == |codes|;
      IngestAll(order, outcomesFor);
      ok := true;
    }
  }
}
