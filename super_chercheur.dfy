/**
 * Post-processing of legal-corpus search results (rag-juridique/api/super_chercheur.py):
 * turning raw hits into results with highlights, and the trend analysis built from them
 * (key arguments, dominant decision, yearly histogram). The search service itself and the
 * floating-point success estimate are not part of this model.
 */
module SuperChercheur {
  import opened Wrappers
  import opened Strings
  import opened ApiModels

  /** A raw hit as the search client returns it; None is a missing key. */
  datatype RawHit = RawHit(
    id: Option<string>,
    title: Option<string>,
    content: Option<string>,
    score: Option<real>,
    metadata: Option<map<string, string>>)

  /** `SearchResult`: metadata values are kept as strings. */
  datatype SearchResult = SearchResult(
    id: string,
    title: string,
    content: string,
    score: real,
    metadata: map<string, string>,
    highlights: seq<string>)

  /** `_build_vertex_filters`: the filters are switched off, whatever is asked for. */
  function BuildVertexFilters(filters: SearchFilters): (expr: string)
    ensures expr == ""
  {
    ""
  }

  /** `_extract_highlights`: nothing for empty content, the whole content when it fits,
      else its first `maxLength` characters followed by "...". */
  function ExtractHighlights(content: string, maxLength: nat): (h: seq<string>)
    ensures content == "" <==> h == []
    ensures |h| <= 1
    ensures content != "" && |content| <= maxLength ==> h == [content]
    ensures |content| > maxLength ==> h == [content[..maxLength] + "..."] && |h[0]| == maxLength + 3
    ensures h != [] ==> StartsWith(content, h[0]) || StartsWith(h[0], content[..maxLength])
  {
    if content == "" then []
    else if |content| <= maxLength then [content]
    else [content[..maxLength] + "..."]
  }

  const DefaultHighlightLength: nat := 150

  /** One result of `_transform_results`: defaults for missing keys, a None or zero score
      read as 0.0, metadata dropped unless asked for. */
  function TransformOne(raw: RawHit, includeMetadata: bool): (r: SearchResult)
    ensures r.score == raw.score.GetOr(0.0)
    ensures r.title == raw.title.GetOr("Sans titre") && r.id == raw.id.GetOr("") && r.content == raw.content.GetOr("")
    ensures !includeMetadata ==> r.metadata == map[]
    ensures includeMetadata ==> r.metadata == raw.metadata.GetOr(map[])
    ensures r.highlights == ExtractHighlights(r.content, DefaultHighlightLength)
  {
    var content := raw.content.GetOr("");
    SearchResult(raw.id.GetOr(""), raw.title.GetOr("Sans titre"), content, raw.score.GetOr(0.0),
                 if includeMetadata then raw.metadata.GetOr(map[]) else map[],
                 ExtractHighlights(content, DefaultHighlightLength))
  }

  /** `_transform_results`: one result per raw hit, in the same order. */
  method TransformResults(raws: seq<RawHit>, includeMetadata: bool) returns (results: seq<SearchResult>)
    ensures |results| == |raws|
    ensures forall i :: 0 <= i < |raws| ==> results[i] == TransformOne(raws[i], includeMetadata)
    ensures !includeMetadata ==> forall i :: 0 <= i < |results| ==> results[i].metadata == map[]
  {
    results := [];
    for i := 0 to |raws|
      invariant |results| == i
      invariant forall j :: 0 <= j < i ==> results[j] == TransformOne(raws[j], includeMetadata)
    {
      results := results + [TransformOne(raws[i], includeMetadata)];
    }
  }

  // ---------------------------------------------------------------------------
  // Key arguments
  // ---------------------------------------------------------------------------

  /** The topic of a result: the last two " > " levels of its breadcrumb. */
  function Topic(r: SearchResult): Option<string> {
    if "breadcrumb" in r.metadata then
      var parts := SplitOn(r.metadata["breadcrumb"], " > ");
      if |parts| >= 2 then Some(parts[|parts| - 2] + " - " + parts[|parts| - 1]) else None
    else None
  }

  /** The topics of the results, first occurrence only, in result order. */
  function KeyArgs(results: seq<SearchResult>): seq<string>
    decreases |results|
  {
    if results == [] then []
    else
      var pre := KeyArgs(results[..|results| - 1]);
      var t := Topic(results[|results| - 1]);
      if t.Some? && t.value !in pre then pre + [t.value] else pre
  }

  predicate Distinct(s: seq<string>) {
    forall i, j :: 0 <= i < j < |s| ==> s[i] != s[j]
  }

  /** Topics are pairwise distinct, each comes from some result, and there are no more
      of them than results. */
  lemma {:induction false} KeyArgsFacts(results: seq<SearchResult>)
    ensures Distinct(KeyArgs(results))
    ensures |KeyArgs(results)| <= |results|
    ensures forall a :: a in KeyArgs(results) ==> exists r :: r in results && Topic(r) == Some(a)
    decreases |results|
  {
    if results != [] {
      var pre := results[..|results| - 1];
      var last := results[|results| - 1];
      KeyArgsFacts(pre);
      var args := KeyArgs(pre);
      var t := Topic(last);
      if t.Some? && t.value !in args {
        var out := args + [t.value];
        forall i, j | 0 <= i < j < |out| ensures out[i] != out[j] {
          if j == |out| - 1 { assert out[i] in args; } else { assert out[i] == args[i] && out[j] == args[j]; }
        }
      }
      forall a | a in KeyArgs(results) ensures exists r :: r in results && Topic(r) == Some(a) {
        if a in args {
          var r :| r in pre && Topic(r) == Some(a);
          assert r in results;
        } else {
          assert last in results;
        }
      }
    }
  }

  /** `_extract_key_arguments`: only the first five results are read; topics are
      distinct and at most five are returned. */
  method ExtractKeyArguments(results: seq<SearchResult>) returns (arguments: seq<string>)
    ensures arguments == KeyArgs(Take(results, 5))
    ensures |arguments| <= 5 && Distinct(arguments)
    ensures forall a :: a in arguments ==> exists r :: r in Take(results, 5) && Topic(r) == Some(a)
  {
    var top := Take(results, 5);
    arguments := [];
    var seenTopics: set<string> := {};
    for i := 0 to |top|
      invariant arguments == KeyArgs(top[..i])
      invariant seenTopics == set a | a in arguments
    {
      assert top[..i + 1][..i] == top[..i];
      var t := Topic(top[i]);
      if t.Some? && t.value !in seenTopics {
        arguments := arguments + [t.value];
        seenTopics := seenTopics + {t.value};
      }
    }
    assert top[..|top|] == top;
    KeyArgsFacts(top);
    arguments := Take(arguments, 5);
  }

  // ---------------------------------------------------------------------------
  // Dominant decision
  // ---------------------------------------------------------------------------

  function MetaOr(m: map<string, string>, key: string, default: string): string {
    if key in m then m[key] else default
  }

  /** `_identify_dominant_jurisprudence`: the top result's title, followed by its
      jurisdiction and date when both are known. */
  function DominantJurisprudence(results: seq<SearchResult>): (d: Option<string>)
    ensures results == [] <==> d.None?
    ensures results != [] ==> StartsWith(d.value, results[0].title)
    ensures results != [] ==>
              (MetaOr(results[0].metadata, "jurisdiction", "") == "" || MetaOr(results[0].metadata, "date_debut", "") == ""
               <==> d == Some(results[0].title))
  {
    if results == [] then None
    else
      var top := results[0];
      var jurisdiction := MetaOr(top.metadata, "jurisdiction", "");
      var date := MetaOr(top.metadata, "date_debut", "");
      if jurisdiction != "" && date != "" then
        var s := top.title + " (" + jurisdiction + ", " + date + ")";
        assert s[..|top.title|] == top.title;
        Some(s)
      else Some(top.title)
  }

  // ---------------------------------------------------------------------------
  // Temporal evolution
  // ---------------------------------------------------------------------------

  /** The year of a result: the first four characters of a non-empty `date_debut`. */
  function YearOf(r: SearchResult): Option<string> {
    var d := MetaOr(r.metadata, "date_debut", "");
    if d != "" then Some(Take(d, 4)) else None
  }

  /** Number of results of year `y`. */
  function DatedCount(results: seq<SearchResult>, y: string): nat
    decreases |results|
  {
    if results == [] then 0
    else DatedCount(results[..|results| - 1], y) + (if YearOf(results[|results| - 1]) == Some(y) then 1 else 0)
  }

  /** The years in order of first appearance: the key order of `yearly_counts`. */
  function YearOrder(results: seq<SearchResult>): seq<string>
    decreases |results|
  {
    if results == [] then []
    else
      var pre := YearOrder(results[..|results| - 1]);
      var y := YearOf(results[|results| - 1]);
      if y.Some? && y.value !in pre then pre + [y.value] else pre
  }

  /** `yearly_counts`, built one result at a time. */
  function YearCounts(results: seq<SearchResult>): map<string, nat>
    decreases |results|
  {
    if results == [] then map[]
    else
      var pre := YearCounts(results[..|results| - 1]);
      match YearOf(results[|results| - 1])
      case Some(y) => pre[y := (if y in pre then pre[y] else 0) + 1]
      case None => pre
  }

  /** The histogram counts exactly the dated results of each year, and its key order
      lists each of its years once. */
  lemma {:induction false} YearCountsMeaning(results: seq<SearchResult>)
    ensures forall y :: y in YearCounts(results) <==> DatedCount(results, y) > 0
    ensures forall y :: y in YearCounts(results) ==> YearCounts(results)[y] == DatedCount(results, y)
    ensures forall y :: y in YearOrder(results) <==> y in YearCounts(results)
    ensures Distinct(YearOrder(results))
    decreases |results|
  {
    if results != [] {
      var pre := results[..|results| - 1];
      YearCountsMeaning(pre);
      var order := YearOrder(pre);
      var y := YearOf(results[|results| - 1]);
      if y.Some? && y.value !in order {
        var out := order + [y.value];
        forall i, j | 0 <= i < j < |out| ensures out[i] != out[j] {
          if j == |out| - 1 { assert out[i] in order; } else { assert out[i] == order[i] && out[j] == order[j]; }
        }
      }
    }
  }

  /** There is no year at all exactly when no result is dated. */
  lemma {:induction false} NoYears(results: seq<SearchResult>)
    ensures YearCounts(results) == map[] <==> forall r :: r in results ==> YearOf(r).None?
    decreases |results|
  {
    if results != [] {
      var pre := results[..|results| - 1];
      NoYears(pre);
      if YearOf(results[|results| - 1]).None? {
        assert forall r :: r in results ==> r in pre || r == results[|results| - 1];
      } else {
        assert results[|results| - 1] in results;
      }
    }
  }

  /** `_analyze_temporal_evolution`'s answer: the histogram, the trend word and the year
      with the most results. */
  datatype Evolution = Evolution(distribution: map<string, nat>, trend: string, peakYear: string)

  /** The counting loop of `_analyze_temporal_evolution`: the histogram and its key order. */
  method CountYears(results: seq<SearchResult>) returns (yearlyCounts: map<string, nat>, years: seq<string>)
    ensures yearlyCounts == YearCounts(results) && years == YearOrder(results)
  {
    yearlyCounts, years := map[], [];
    for i := 0 to |results|
      invariant yearlyCounts == YearCounts(results[..i])
      invariant years == YearOrder(results[..i])
    {
      assert results[..i + 1][..i] == results[..i];
      var y := YearOf(results[i]);
      if y.Some? {
        yearlyCounts := yearlyCounts[y.value := (if y.value in yearlyCounts then yearlyCounts[y.value] else 0) + 1];
        if y.value !in years {
          years := years + [y.value];
        }
      }
    }
    assert results[..|results|] == results;
  }

  /** `max(yearly_counts, key=yearly_counts.get)`: the first key, in key order, whose
      count is largest. */
  method PeakYear(years: seq<string>, counts: map<string, nat>) returns (peak: string)
    requires years != [] && Distinct(years)
    requires forall y :: y in years ==> y in counts
    ensures peak in years
    ensures forall j :: 0 <= j < |years| ==> counts[years[j]] <= counts[peak]
    ensures forall j, k :: 0 <= k < j < |years| && years[j] == peak ==> counts[years[k]] < counts[peak]
  {
    peak := years[0];
    ghost var at := 0;
    for i := 1 to |years|
      invariant 0 <= at < i && years[at] == peak
      invariant forall j :: 0 <= j < i ==> counts[years[j]] <= counts[peak]
      invariant forall k :: 0 <= k < at ==> counts[years[k]] < counts[peak]
    {
      if counts[years[i]] > counts[peak] {
        peak := years[i];
        at := i;
      }
    }
    forall j, k | 0 <= k < j < |years| && years[j] == peak ensures counts[years[k]] < counts[peak] {
      assert j == at;
    }
  }

  /** `_analyze_temporal_evolution`: None stands for the empty dict. */
  method AnalyzeTemporalEvolution(results: seq<SearchResult>) returns (e: Option<Evolution>)
    ensures e.None? <==> forall r :: r in results ==> YearOf(r).None?
    ensures e.Some? ==> e.value.distribution == YearCounts(results)
    ensures e.Some? ==> (e.value.trend == "stable" <==> |YearCounts(results).Keys| <= 2)
    ensures e.Some? ==> e.value.trend == "stable" || e.value.trend == "croissant"
    ensures e.Some? ==> e.value.peakYear in e.value.distribution
                        && forall y :: y in e.value.distribution ==> e.value.distribution[y] <= e.value.distribution[e.value.peakYear]
    ensures e.Some? ==> forall j, k :: 0 <= k < j < |YearOrder(results)| && YearOrder(results)[j] == e.value.peakYear
                                       && YearOrder(results)[k] in e.value.distribution ==>
                          e.value.distribution[YearOrder(results)[k]] < e.value.distribution[e.value.peakYear]
  {
    var yearlyCounts, years := CountYears(results);
    YearCountsMeaning(results);
    NoYears(results);
    if yearlyCounts == map[] {
      return None;
    }
    assert years != [] by {
      var k :| k in yearlyCounts;
      assert k in years;
    }
    var peak := PeakYear(years, yearlyCounts);
    forall y | y in yearlyCounts ensures yearlyCounts[y] <= yearlyCounts[peak] {
      var j :| 0 <= j < |years| && years[j] == y;
    }
    var trend := if |yearlyCounts.Keys| <= 2 then "stable" else "croissant";
    e := Some(Evolution(yearlyCounts, trend, peak));
  }
}
