/**
 * The legal-citation audit engine (rag-juridique/api/audit_conformite.py): the citation
 * extractor, the per-reference verifier and the scorer/report builder.
 *
 * The seven regular-expression recognizers are not modelled as regular expressions: the
 * extractor receives, for each recognizer in priority order, the list of matches the
 * regex engine's `finditer` yields (start, end and capture groups). The legal-corpus
 * search service and the text generator are oracles passed as parameters. Dates are
 * integer timestamps.
 */
module AuditConformite {
  import opened Wrappers
  import opened Strings
  import opened Lists
  import opened ApiModels

  // ---------------------------------------------------------------------------
  // References and recognizers
  // ---------------------------------------------------------------------------

  /** The recognizer a reference came from (the `type` field). */
  datatype RefKind =
    | ArticleCode          // "article 1101 du Code civil"
    | ArticleAbrege        // "art. 1101 du Code civil"
    | ArticlePremier       // "article premier du Code civil", "article 1er ..."
    | NotationLegistique   // "L. 110-1"
    | ArticleAlinea        // "article 1101, alinéa 2"
    | ArticlePlage         // "articles 1101 à 1105 du Code civil"
    | ArticleSimple        // "l'article 1101"

  /** The recognizers in the order the extractor runs them. */
  const Recognizers: seq<RefKind> :=
    [ArticleCode, ArticleAbrege, ArticlePremier, NotationLegistique, ArticleAlinea, ArticlePlage, ArticleSimple]

  /** Position of a recognizer in the priority order (0 runs first). */
  function Rank(k: RefKind): (r: nat)
    ensures r < |Recognizers| && Recognizers[r] == k
  {
    match k
    case ArticleCode => 0
    case ArticleAbrege => 1
    case ArticlePremier => 2
    case NotationLegistique => 3
    case ArticleAlinea => 4
    case ArticlePlage => 5
    case ArticleSimple => 6
  }

  /** Number of capture groups of each recognizer's pattern. */
  function GroupCount(k: RefKind): nat {
    match k
    case ArticleCode => 2         // article number, code name
    case ArticleAbrege => 2       // article number, code name
    case ArticlePremier => 2      // ordinal word, code name
    case NotationLegistique => 1  // article number
    case ArticleAlinea => 2       // article number, alinea number
    case ArticlePlage => 3        // first article, last article, code name
    case ArticleSimple => 1       // article number
  }

  /** One match reported by `finditer`: `match.start()`, `match.end()` and the groups 1..n. */
  datatype RawMatch = RawMatch(start: nat, end: nat, groups: seq<string>)

  predicate MatchFits(text: string, k: RefKind, m: RawMatch) {
    m.start <= m.end <= |text| && |m.groups| == GroupCount(k)
  }

  /** What the regex engine guarantees: one match list per recognizer, each match inside
      the text and carrying its pattern's groups. */
  predicate WellFormed(text: string, matches: seq<seq<RawMatch>>) {
    |matches| == |Recognizers|
    && forall k, j :: 0 <= k < |matches| && 0 <= j < |matches[k]| ==> MatchFits(text, Recognizers[k], matches[k][j])
  }

  /** One extracted citation. `codeName` is None where the source stores None;
      `alineaNum` and `articleNumFin` are the keys only some recognizers set. */
  datatype Reference = Reference(
    kind: RefKind,
    articleNum: string,
    codeName: Option<string>,
    alineaNum: Option<string>,
    articleNumFin: Option<string>,
    fullText: string,
    position: nat,
    context: string)

  function Max(a: int, b: int): int { if a >= b then a else b }
  function Min(a: int, b: int): int { if a <= b then a else b }

  /** `text[max(0, start-50):min(len(text), end+50)].strip()`: never more than 50
      characters either side of the match. */
  function Context(text: string, start: nat, end: nat): (c: string)
    requires start <= end <= |text|
    ensures |c| <= (end - start) + 100
    ensures IsStripped(c)
  {
    Strip(text[Max(0, start - 50)..Min(|text|, end + 50)])
  }

  /** The shape every extracted reference has, whatever text it came from:
      its `full_text` is the text at its position, its context is bounded, code
      names are lower-case, and each recognizer fills its own fields. */
  predicate Normalised(text: string, r: Reference) {
    && r.position + |r.fullText| <= |text|
    && text[r.position..r.position + |r.fullText|] == r.fullText
    && |r.context| <= |r.fullText| + 100
    && (r.codeName.Some? ==> IsLowerCase(r.codeName.value))
    && (r.kind == ArticlePremier ==> r.articleNum == "1")
    && (r.kind == NotationLegistique ==> r.codeName == Some(CommerceCode))
    && (r.kind == ArticleAlinea || r.kind == ArticleSimple <==> r.codeName.None?)
    && (r.kind == ArticleAlinea <==> r.alineaNum.Some?)
    && (r.kind == ArticlePlage <==> r.articleNumFin.Some?)
  }

  /** The code `L.`-style article numbers are attributed to. */
  const CommerceCode := "code de commerce"

  lemma CommerceCodeIsLowerCase()
    ensures IsLowerCase(CommerceCode)
  {
  }

  /** The record `add_reference` receives for a match of recognizer `k`: the captured
      article number (the first one of a range, whose last one is kept apart), the
      captured alinea and the captured code name lower-cased. */
  function Build(text: string, k: RefKind, m: RawMatch): (r: Reference)
    requires MatchFits(text, k, m)
    ensures Normalised(text, r)
    ensures r.kind == k && r.position == m.start && r.fullText == text[m.start..m.end]
    ensures r.context == Context(text, m.start, m.end)
    ensures k != ArticlePremier ==> r.articleNum == m.groups[0]
    ensures k == ArticlePlage ==>
      r.articleNumFin == Some(m.groups[1]) && r.codeName == Some(Lower(m.groups[2]))
    ensures k == ArticleAlinea ==> r.alineaNum == Some(m.groups[1])
    ensures k in {ArticleCode, ArticleAbrege, ArticlePremier} ==> r.codeName == Some(Lower(m.groups[1]))
  {
    CommerceCodeIsLowerCase();
    var g := m.groups;
    var full := text[m.start..m.end];
    var ctx := Context(text, m.start, m.end);
    var r := match k
      case ArticleCode => Reference(k, g[0], Some(Lower(g[1])), None, None, full, m.start, ctx)
      case ArticleAbrege => Reference(k, g[0], Some(Lower(g[1])), None, None, full, m.start, ctx)
      case ArticlePremier => Reference(k, "1", Some(Lower(g[1])), None, None, full, m.start, ctx)
      case NotationLegistique => Reference(k, g[0], Some(CommerceCode), None, None, full, m.start, ctx)
      case ArticleAlinea => Reference(k, g[0], None, Some(g[1]), None, full, m.start, ctx)
      case ArticlePlage => Reference(k, g[0], Some(Lower(g[2])), None, Some(g[1]), full, m.start, ctx)
      case ArticleSimple => Reference(k, g[0], None, None, None, full, m.start, ctx);
    r
  }

  // ---------------------------------------------------------------------------
  // Extraction specification
  // ---------------------------------------------------------------------------

  /** The records built from one recognizer's matches, in `finditer` order. */
  function CandidatesOf(text: string, k: RefKind, ms: seq<RawMatch>): (cs: seq<Reference>)
    requires forall j :: 0 <= j < |ms| ==> MatchFits(text, k, ms[j])
    decreases |ms|
  {
    if ms == [] then []
    else CandidatesOf(text, k, ms[..|ms| - 1]) + [Build(text, k, ms[|ms| - 1])]
  }

  /** The records of the first `n` recognizers, in the order `add_reference` sees them. */
  function Candidates(text: string, matches: seq<seq<RawMatch>>, n: nat): seq<Reference>
    requires WellFormed(text, matches) && n <= |Recognizers|
  {
    if n == 0 then []
    else Candidates(text, matches, n - 1) + CandidatesOf(text, Recognizers[n - 1], matches[n - 1])
  }

  function AllCandidates(text: string, matches: seq<seq<RawMatch>>): seq<Reference>
    requires WellFormed(text, matches)
  {
    Candidates(text, matches, |Recognizers|)
  }

  function Positions(rs: seq<Reference>): set<nat> {
    set r | r in rs :: r.position
  }

  /** `add_reference` applied to every record in turn: a record is kept only when no
      record already kept has the same position. */
  function KeepFirst(cs: seq<Reference>): seq<Reference>
    decreases |cs|
  {
    if cs == [] then []
    else
      var prev := KeepFirst(cs[..|cs| - 1]);
      var c := cs[|cs| - 1];
      if c.position in Positions(prev) then prev else prev + [c]
  }

  /** `references.sort(key=position)`: a stable insertion by position. */
  function InsertByPosition(s: seq<Reference>, x: Reference): seq<Reference>
    decreases |s|
  {
    if s == [] then [x]
    else if x.position < s[0].position then [x] + s
    else [s[0]] + InsertByPosition(s[1..], x)
  }

  function SortByPosition(s: seq<Reference>): seq<Reference>
    decreases |s|
  {
    if s == [] then [] else InsertByPosition(SortByPosition(s[..|s| - 1]), s[|s| - 1])
  }

  /** What `_extract_legal_references` returns. */
  function Extract(text: string, matches: seq<seq<RawMatch>>): seq<Reference>
    requires WellFormed(text, matches)
  {
    SortByPosition(KeepFirst(AllCandidates(text, matches)))
  }

  predicate StrictlyOrdered(s: seq<Reference>) {
    forall i, j :: 0 <= i < j < |s| ==> s[i].position < s[j].position
  }

  // ---------------------------------------------------------------------------
  // Extraction lemmas
  // ---------------------------------------------------------------------------

  lemma {:induction false} CandidatesOfShape(text: string, k: RefKind, ms: seq<RawMatch>)
    requires forall j :: 0 <= j < |ms| ==> MatchFits(text, k, ms[j])
    ensures forall c :: c in CandidatesOf(text, k, ms) ==> Normalised(text, c)
    decreases |ms|
  {
    if ms != [] {
      CandidatesOfShape(text, k, ms[..|ms| - 1]);
    }
  }

  lemma {:induction false} CandidatesOfKind(text: string, k: RefKind, ms: seq<RawMatch>)
    requires forall j :: 0 <= j < |ms| ==> MatchFits(text, k, ms[j])
    ensures forall i :: 0 <= i < |CandidatesOf(text, k, ms)| ==> CandidatesOf(text, k, ms)[i].kind == k
    decreases |ms|
  {
    if ms != [] {
      CandidatesOfKind(text, k, ms[..|ms| - 1]);
    }
  }

  lemma {:induction false} CandidatesNormalised(text: string, matches: seq<seq<RawMatch>>, n: nat)
    requires WellFormed(text, matches) && n <= |Recognizers|
    ensures forall c :: c in Candidates(text, matches, n) ==> Normalised(text, c)
  {
    if n > 0 {
      CandidatesNormalised(text, matches, n - 1);
      CandidatesOfShape(text, Recognizers[n - 1], matches[n - 1]);
    }
  }

  lemma RankOfRecognizer(i: nat)
    requires i < |Recognizers|
    ensures Rank(Recognizers[i]) == i
  {
  }

  /** Ranks never decrease along `cs`. */
  predicate RankSorted(cs: seq<Reference>) {
    forall i, j :: 0 <= i <= j < |cs| ==> Rank(cs[i].kind) <= Rank(cs[j].kind)
  }

  predicate RanksBelow(cs: seq<Reference>, n: nat) {
    forall i :: 0 <= i < |cs| ==> Rank(cs[i].kind) < n
  }

  lemma RankedAppend(pre: seq<Reference>, last: seq<Reference>, n: nat)
    requires n > 0 && RankSorted(pre) && RanksBelow(pre, n - 1)
    requires forall i :: 0 <= i < |last| ==> Rank(last[i].kind) == n - 1
    ensures RankSorted(pre + last) && RanksBelow(pre + last, n)
  {
    var all := pre + last;
    forall i, j | 0 <= i <= j < |all| ensures Rank(all[i].kind) <= Rank(all[j].kind) {
      if j < |pre| {
        assert all[i] == pre[i] && all[j] == pre[j];
      } else if i < |pre| {
        assert all[i] == pre[i] && all[j] == last[j - |pre|];
      } else {
        assert all[i] == last[i - |pre|] && all[j] == last[j - |pre|];
      }
    }
    forall i | 0 <= i < |all| ensures Rank(all[i].kind) < n {
      if i < |pre| { assert all[i] == pre[i]; } else { assert all[i] == last[i - |pre|]; }
    }
  }

  /** Records come in recognizer order: ranks never decrease along the candidate list. */
  lemma {:induction false} CandidatesRanked(text: string, matches: seq<seq<RawMatch>>, n: nat)
    requires WellFormed(text, matches) && n <= |Recognizers|
    ensures RankSorted(Candidates(text, matches, n)) && RanksBelow(Candidates(text, matches, n), n)
  {
    if n > 0 {
      CandidatesRanked(text, matches, n - 1);
      var k := Recognizers[n - 1];
      RankOfRecognizer(n - 1);
      CandidatesOfKind(text, k, matches[n - 1]);
      var pre := Candidates(text, matches, n - 1);
      var last := CandidatesOf(text, k, matches[n - 1]);
      assert Candidates(text, matches, n) == pre + last;
      RankedAppend(pre, last, n);
    }
  }

  lemma {:induction false} KeepFirstSubset(cs: seq<Reference>)
    ensures forall x :: x in KeepFirst(cs) ==> x in cs
    decreases |cs|
  {
    if cs != [] {
      KeepFirstSubset(cs[..|cs| - 1]);
      assert cs == cs[..|cs| - 1] + [cs[|cs| - 1]];
    }
  }

  lemma {:induction false} KeepFirstPositions(cs: seq<Reference>)
    ensures Positions(KeepFirst(cs)) == Positions(cs)
    decreases |cs|
  {
    if cs != [] {
      var pre := cs[..|cs| - 1];
      var c := cs[|cs| - 1];
      KeepFirstPositions(pre);
      assert cs == pre + [c];
      assert Positions(cs) == Positions(pre) + {c.position};
      var prev := KeepFirst(pre);
      if c.position !in Positions(prev) {
        assert Positions(prev + [c]) == Positions(prev) + {c.position};
      }
    }
  }

  predicate DistinctPositions(s: seq<Reference>) {
    forall i, j :: 0 <= i < j < |s| ==> s[i].position != s[j].position
  }

  lemma {:induction false} KeepFirstDistinct(cs: seq<Reference>)
    ensures DistinctPositions(KeepFirst(cs))
    decreases |cs|
  {
    if cs != [] {
      var pre := cs[..|cs| - 1];
      var c := cs[|cs| - 1];
      var prev := KeepFirst(pre);
      KeepFirstDistinct(pre);
      if c.position !in Positions(prev) {
        var out := prev + [c];
        forall i, j | 0 <= i < j < |out| ensures out[i].position != out[j].position {
          if j == |out| - 1 {
            assert out[i] in prev;
          } else {
            assert out[i] == prev[i] && out[j] == prev[j];
          }
        }
      }
    }
  }

  /** A kept record is the first candidate with its position. */
  lemma {:induction false} KeepFirstIsFirst(cs: seq<Reference>, x: Reference, j: nat)
    requires x in KeepFirst(cs) && j < |cs| && cs[j].position == x.position
    ensures x in cs[..j + 1]
    decreases |cs|
  {
    var pre := cs[..|cs| - 1];
    var c := cs[|cs| - 1];
    var prev := KeepFirst(pre);
    KeepFirstSubset(cs);
    if j == |cs| - 1 {
      assert cs[..j + 1] == cs;
    } else {
      assert cs[j] == pre[j] && pre[..j + 1] == cs[..j + 1];
      if x in prev {
        KeepFirstIsFirst(pre, x, j);
      } else {
        assert x == c;
        assert c.position in Positions(pre);
        KeepFirstPositions(pre);
        assert false;
      }
    }
  }

  lemma {:induction false} InsertMultiset(s: seq<Reference>, x: Reference)
    ensures multiset(InsertByPosition(s, x)) == multiset(s) + multiset{x}
    decreases |s|
  {
    if s != [] && x.position >= s[0].position {
      InsertMultiset(s[1..], x);
      assert s == [s[0]] + s[1..];
    }
  }

  lemma ConsOrdered(h: Reference, u: seq<Reference>)
    requires StrictlyOrdered(u) && forall y :: y in u ==> h.position < y.position
    ensures StrictlyOrdered([h] + u)
  {
    var r := [h] + u;
    forall i, j | 0 <= i < j < |r| ensures r[i].position < r[j].position {
      if i == 0 {
        assert r[j] == u[j - 1];
        assert u[j - 1] in u;
      } else {
        assert r[i] == u[i - 1] && r[j] == u[j - 1];
      }
    }
  }

  lemma TailPositions(s: seq<Reference>)
    requires s != []
    ensures Positions(s[1..]) <= Positions(s)
    ensures StrictlyOrdered(s) ==> forall y :: y in s[1..] ==> s[0].position < y.position
  {
    forall p | p in Positions(s[1..]) ensures p in Positions(s) {
      var y :| y in s[1..] && y.position == p;
      assert y in s;
    }
    if StrictlyOrdered(s) {
      forall y | y in s[1..] ensures s[0].position < y.position {
        var i :| 0 <= i < |s[1..]| && s[1..][i] == y;
        assert s[i + 1] == y;
      }
    }
  }

  lemma {:induction false} InsertOrdered(s: seq<Reference>, x: Reference)
    requires StrictlyOrdered(s) && x.position !in Positions(s)
    ensures StrictlyOrdered(InsertByPosition(s, x))
    decreases |s|
  {
    if s == [] {
    } else if x.position < s[0].position {
      forall y | y in s ensures x.position < y.position {
        var i :| 0 <= i < |s| && s[i] == y;
        if i > 0 { assert s[0].position < s[i].position; }
      }
      ConsOrdered(x, s);
    } else {
      var t := s[1..];
      assert x.position != s[0].position by { assert s[0] in s; }
      TailPositions(s);
      InsertOrdered(t, x);
      InsertMultiset(t, x);
      var u := InsertByPosition(t, x);
      forall y | y in u ensures s[0].position < y.position {
        assert y in multiset(u);
        if y != x { assert y in multiset(t); }
      }
      ConsOrdered(s[0], u);
    }
  }

  lemma PositionsOfPermutation(a: seq<Reference>, b: seq<Reference>)
    requires multiset(a) == multiset(b)
    ensures Positions(a) == Positions(b)
  {
    forall r ensures r in a <==> r in b {
      assert r in a <==> r in multiset(a);
      assert r in b <==> r in multiset(b);
    }
  }

  lemma SortFacts(s: seq<Reference>)
    requires DistinctPositions(s)
    ensures multiset(SortByPosition(s)) == multiset(s)
    ensures StrictlyOrdered(SortByPosition(s))
  {
    SortPermutation(s);
    SortOrdered(s);
  }

  /** Sorting by insertion keeps every record, as often as it occurs. */
  lemma {:induction false} SortPermutation(s: seq<Reference>)
    ensures multiset(SortByPosition(s)) == multiset(s)
    decreases |s|
  {
    if s != [] {
      var pre := s[..|s| - 1];
      var x := s[|s| - 1];
      SortPermutation(pre);
      InsertMultiset(SortByPosition(pre), x);
      assert s == pre + [x];
    }
  }

  /** With distinct positions, sorting by insertion gives strictly ascending positions. */
  lemma {:induction false} SortOrdered(s: seq<Reference>)
    requires DistinctPositions(s)
    ensures StrictlyOrdered(SortByPosition(s))
    decreases |s|
  {
    if s != [] {
      var pre := s[..|s| - 1];
      var x := s[|s| - 1];
      assert DistinctPositions(pre) by {
        forall i, j | 0 <= i < j < |pre| ensures pre[i].position != pre[j].position {
          assert pre[i] == s[i] && pre[j] == s[j];
        }
      }
      SortOrdered(pre);
      SortPermutation(pre);
      var sp := SortByPosition(pre);
      PositionsOfPermutation(sp, pre);
      forall r | r in pre ensures r.position != x.position {
        var i :| 0 <= i < |pre| && pre[i] == r;
        assert s[i] == r && s[|s| - 1] == x;
      }
      assert x.position !in Positions(pre);
      InsertOrdered(sp, x);
    }
  }

  /** The extractor's guarantees: positions are pairwise distinct and ascending; every
      reference is a record some recognizer produced, normalised; every start offset any
      recognizer matched is represented; and at a shared offset the record kept is the
      first one produced, so the earlier recognizer in the priority order wins. */
  lemma ExtractionProperties(text: string, matches: seq<seq<RawMatch>>)
    requires WellFormed(text, matches)
    ensures StrictlyOrdered(Extract(text, matches))
    ensures forall r :: r in Extract(text, matches) ==> r in AllCandidates(text, matches) && Normalised(text, r)
    ensures Positions(Extract(text, matches)) == Positions(AllCandidates(text, matches))
    ensures forall r, j :: r in Extract(text, matches) && 0 <= j < |AllCandidates(text, matches)|
                           && AllCandidates(text, matches)[j].position == r.position
                           ==> r in AllCandidates(text, matches)[..j + 1]
                               && Rank(r.kind) <= Rank(AllCandidates(text, matches)[j].kind)
  {
    var cs := AllCandidates(text, matches);
    var kept := KeepFirst(cs);
    var out := Extract(text, matches);
    KeepFirstSubset(cs);
    KeepFirstPositions(cs);
    KeepFirstDistinct(cs);
    SortFacts(kept);
    PositionsOfPermutation(out, kept);
    CandidatesRanked(text, matches, |Recognizers|);
    CandidatesNormalised(text, matches, |Recognizers|);
    assert forall r :: r in out <==> r in kept by {
      forall r ensures r in out <==> r in kept {
        assert r in out <==> r in multiset(out);
        assert r in kept <==> r in multiset(kept);
      }
    }
    forall r, j | r in out && 0 <= j < |cs| && cs[j].position == r.position
      ensures r in cs[..j + 1] && Rank(r.kind) <= Rank(cs[j].kind)
    {
      KeepFirstIsFirst(cs, r, j);
      var i :| 0 <= i < j + 1 && cs[..j + 1][i] == r;
      assert cs[i] == r;
    }
  }

  lemma CandidatesOfStep(text: string, k: RefKind, ms: seq<RawMatch>, before: seq<Reference>, j: nat)
    requires j < |ms| && forall i :: 0 <= i < |ms| ==> MatchFits(text, k, ms[i])
    ensures before + CandidatesOf(text, k, ms[..j + 1]) == before + CandidatesOf(text, k, ms[..j]) + [Build(text, k, ms[j])]
  {
    assert ms[..j + 1][..j] == ms[..j];
  }

  lemma PositionsSnoc(s: seq<Reference>, c: Reference)
    ensures Positions(s + [c]) == Positions(s) + {c.position}
  {
  }

  lemma KeepFirstStep(done: seq<Reference>, c: Reference)
    ensures KeepFirst(done + [c]) ==
            if c.position in Positions(KeepFirst(done)) then KeepFirst(done) else KeepFirst(done) + [c]
  {
    assert (done + [c])[..|done|] == done;
  }

  /** `add_reference` called on the records of one recognizer's matches, in order:
      `refs` is the list kept so far and `seen` its set of positions. */
  method AddMatches(text: string, kind: RefKind, ms: seq<RawMatch>, refs0: seq<Reference>, seen0: set<nat>,
                    ghost before: seq<Reference>) returns (refs: seq<Reference>, seen: set<nat>)
    requires forall i :: 0 <= i < |ms| ==> MatchFits(text, kind, ms[i])
    requires refs0 == KeepFirst(before) && seen0 == Positions(refs0)
    ensures refs == KeepFirst(before + CandidatesOf(text, kind, ms))
    ensures seen == Positions(refs)
  {
    refs, seen := refs0, seen0;
    assert ms[..0] == [] && before + CandidatesOf(text, kind, ms[..0]) == before;
    for j := 0 to |ms|
      invariant refs == KeepFirst(before + CandidatesOf(text, kind, ms[..j]))
      invariant seen == Positions(refs)
    {
      var ref := Build(text, kind, ms[j]);
      ghost var done := before + CandidatesOf(text, kind, ms[..j]);
      CandidatesOfStep(text, kind, ms, before, j);
      KeepFirstStep(done, ref);
      ghost var next := KeepFirst(done + [ref]);
      if ref.position !in seen {
        PositionsSnoc(refs, ref);
        refs := refs + [ref];
        seen := seen + {ref.position};
      }
      assert refs == next;
    }
    assert ms[..|ms|] == ms;
  }

  /** `_extract_legal_references`: each recognizer's matches are offered to
      `add_reference` in priority order, then the list is sorted by position. */
  method ExtractLegalReferences(text: string, matches: seq<seq<RawMatch>>) returns (references: seq<Reference>)
    requires WellFormed(text, matches)
    ensures references == Extract(text, matches)
    ensures StrictlyOrdered(references)
    ensures forall r :: r in references ==> Normalised(text, r)
  {
    var refs := AddAllRecognizers(text, matches);
    references := SortByPosition(refs);
    ExtractionProperties(text, matches);
  }

  /** The loop over the seven recognizers, in priority order, before the sort. */
  method AddAllRecognizers(text: string, matches: seq<seq<RawMatch>>) returns (refs: seq<Reference>)
    requires WellFormed(text, matches)
    ensures refs == KeepFirst(AllCandidates(text, matches))
  {
    refs := [];
    var positionsSeen: set<nat> := {};
    for k := 0 to |Recognizers|
      invariant refs == KeepFirst(Candidates(text, matches, k))
      invariant positionsSeen == Positions(refs)
    {
      refs, positionsSeen := AddMatches(text, Recognizers[k], matches[k], refs, positionsSeen, Candidates(text, matches, k));
    }
  }

  /** Recognizers that matched nothing contribute no record. */
  lemma {:induction false} CandidatesSkipEmpty(text: string, matches: seq<seq<RawMatch>>, lo: nat, hi: nat)
    requires WellFormed(text, matches) && lo <= hi <= |Recognizers|
    requires forall i :: lo <= i < hi ==> matches[i] == []
    ensures Candidates(text, matches, hi) == Candidates(text, matches, lo)
    decreases hi
  {
    if lo < hi {
      CandidatesSkipEmpty(text, matches, lo, hi - 1);
      assert CandidatesOf(text, Recognizers[hi - 1], matches[hi - 1]) == [];
    }
  }

  /** Only `article_code` (once, at `m1`) and `article_simple` (once, at `m2`) matched. */
  predicate CodeAndSimpleOnly(matches: seq<seq<RawMatch>>, m1: RawMatch, m2: RawMatch) {
    |matches| == |Recognizers| && matches[0] == [m1] && matches[6] == [m2]
    && forall i :: 1 <= i < 6 ==> matches[i] == []
  }

  /** The dedup is by exact start offset only: when `article_code` and `article_simple`
      each match once, at different starts, both records are reported, in text order,
      even where the two matched spans overlap. */
  lemma DedupByExactStart(text: string, matches: seq<seq<RawMatch>>, m1: RawMatch, m2: RawMatch)
    requires CodeAndSimpleOnly(matches, m1, m2)
    requires MatchFits(text, ArticleCode, m1) && MatchFits(text, ArticleSimple, m2)
    requires m2.start < m1.start
    ensures WellFormed(text, matches)
    ensures Extract(text, matches) == [Build(text, ArticleSimple, m2), Build(text, ArticleCode, m1)]
  {
    TwoCandidates(text, matches, m1, m2);
    TwoRecordsKept(Build(text, ArticleCode, m1), Build(text, ArticleSimple, m2));
  }

  lemma TwoCandidates(text: string, matches: seq<seq<RawMatch>>, m1: RawMatch, m2: RawMatch)
    requires CodeAndSimpleOnly(matches, m1, m2)
    requires MatchFits(text, ArticleCode, m1) && MatchFits(text, ArticleSimple, m2)
    ensures WellFormed(text, matches)
    ensures AllCandidates(text, matches) == [Build(text, ArticleCode, m1), Build(text, ArticleSimple, m2)]
  {
    assert WellFormed(text, matches);
    var a := Build(text, ArticleCode, m1);
    var b := Build(text, ArticleSimple, m2);
    assert CandidatesOf(text, ArticleCode, [m1]) == [a] by { assert [m1][..0] == []; }
    assert CandidatesOf(text, ArticleSimple, [m2]) == [b] by { assert [m2][..0] == []; }
    assert Candidates(text, matches, 1) == [a];
    CandidatesSkipEmpty(text, matches, 1, 6);
  }

  lemma TwoRecordsKept(a: Reference, b: Reference)
    requires b.position < a.position
    ensures SortByPosition(KeepFirst([a, b])) == [b, a]
  {
    assert [a, b][..1] == [a];
    assert KeepFirst([a]) == [a] by { assert [a][..0] == []; }
    assert KeepFirst([a, b]) == [a, b];
    assert SortByPosition([a]) == [a] by { assert [a][..0] == []; }
  }

  /** On "l'article 1101 du Code civil" the optional "l'" prefix of `article_simple` makes
      it start two characters before `article_code`, so one citation yields two references. */
  lemma PrefixedCitationCountedTwice()
    ensures var text := "l'article 1101 du Code civil";
            var matches := [[RawMatch(2, 28, ["1101", "Code civil"])], [], [], [], [], [],
                            [RawMatch(0, 14, ["1101"])]];
            WellFormed(text, matches) && |Extract(text, matches)| == 2
  {
    var m1 := RawMatch(2, 28, ["1101", "Code civil"]);
    var m2 := RawMatch(0, 14, ["1101"]);
    var matches := [[m1], [], [], [], [], [], [m2]];
    assert CodeAndSimpleOnly(matches, m1, m2);
    DedupByExactStart("l'article 1101 du Code civil", matches, m1, m2);
  }

  // ---------------------------------------------------------------------------
  // Verification of one reference
  // ---------------------------------------------------------------------------

  /** What `datetime.fromisoformat` makes of a date string: the day, and the day as
      `strftime('%d/%m/%Y')` writes it. */
  datatype ParsedDate = ParsedDate(day: int, dayMonthYear: string)

  /** A date string from the corpus with its parse (None when `fromisoformat` raises). */
  datatype DateText = DateText(raw: string, parsed: Option<ParsedDate>)

  /** The keys of a search hit's `metadata` the verifier reads; None is a missing key. */
  datatype HitMetadata = HitMetadata(etat: Option<string>, dateDebut: Option<DateText>, dateFin: Option<string>)

  /** A search hit; its `metadata` key may be missing. */
  datatype Hit = Hit(metadata: Option<HitMetadata>)

  /** The search service's answer to one query: ranked hits, or the exception it raised. */
  datatype LookupResult = Hits(hits: seq<Hit>) | LookupFailed(message: string)

  /** The free-text query for a reference: "article N code", or "article N" without a code. */
  function Query(r: Reference): string {
    if Truthy(r.codeName) then "article " + r.articleNum + " " + r.codeName.value
    else "article " + r.articleNum
  }

  /** The hit's `etat`, "INCONNU" when `metadata` or `etat` is missing. */
  function Etat(h: Hit): string {
    match h.metadata
    case None => "INCONNU"
    case Some(md) => md.etat.GetOr("INCONNU")
  }

  function DateDebut(h: Hit): Option<DateText> {
    match h.metadata
    case None => None
    case Some(md) => md.dateDebut
  }

  function DateFin(h: Hit): Option<string> {
    match h.metadata
    case None => None
    case Some(md) => md.dateFin
  }

  /** The temporal anachronism: the amendment took effect after the document's date. */
  predicate AmendedAfter(documentDate: Option<int>, debut: Option<DateText>) {
    documentDate.Some? && debut.Some? && debut.value.raw != ""
    && debut.value.parsed.Some? && debut.value.parsed.value.day > documentDate.value
  }

  function RawDate(d: Option<DateText>): Option<string> {
    match d
    case None => None
    case Some(t) => Some(t.raw)
  }

  // The texts of the issues.
  const NotFoundRecommendation := "Vérifier la référence ou la supprimer si obsolète."
  const AmendedRecommendation := "Vérifier que la version citée correspond à la version actuelle."
  const ManualRecommendation := "Vérifier manuellement cette référence."
  const NotFoundPrefix := "Référence introuvable : "
  const FailurePrefix := "Impossible de vérifier la référence : "
  const UnknownDate := "date inconnue"
  const RepealedPrefix := "Mettre à jour la référence (article abrogé le "

  /** "Référence introuvable : <citation>". */
  function NotFoundDescription(fullText: string): (d: string)
    ensures StartsWith(d, NotFoundPrefix) && d[|NotFoundPrefix|..] == fullText
  {
    NotFoundPrefix + fullText
  }

  /** "Impossible de vérifier la référence : <str(e)>". */
  function FailureDescription(message: string): (d: string)
    ensures StartsWith(d, FailurePrefix) && d[|FailurePrefix|..] == message
  {
    FailurePrefix + message
  }

  /** "Article <num><what>": the article number right after "Article ". */
  function ArticleDescription(articleNum: string, what: string): (d: string)
    ensures |d| == 8 + |articleNum| + |what|
    ensures d[..8] == "Article " && d[8..8 + |articleNum|] == articleNum && d[8 + |articleNum|..] == what
  {
    "Article " + articleNum + what
  }

  /** The advice for a repealed article: its end date, or "date inconnue" when the
      metadata has none (a missing or empty `date_fin`). */
  function RepealedRecommendation(dateFin: Option<string>): (t: string)
    ensures |t| >= |RepealedPrefix| + 2
    ensures t[..|RepealedPrefix|] == RepealedPrefix && t[|t| - 2..] == ")."
    ensures Truthy(dateFin) ==> t[|RepealedPrefix|..|t| - 2] == dateFin.value
    ensures !Truthy(dateFin) ==> t[|RepealedPrefix|..|t| - 2] == UnknownDate
  {
    RepealedPrefix + (if Truthy(dateFin) then dateFin.value else UnknownDate) + ")."
  }

  /** The advice for an article amended after the document: the day of the amendment,
      written day/month/year. */
  function AmendedAfterRecommendation(dayMonthYear: string): (t: string)
    ensures var prefix := "Vérifier que le contenu correspond à la version en vigueur au ";
            StartsWith(t, prefix) && t[|prefix|..] == dayMonthYear + "."
  {
    "Vérifier que le contenu correspond à la version en vigueur au " + dayMonthYear + "."
  }

  function MakeIssue(sev: IssueSeverity, kind: string, r: Reference, description: string, status: string,
                     abrogation: Option<string>, modification: Option<string>, recommendation: string): AuditIssue {
    AuditIssue(sev, kind, r.fullText, r.context, description, status, abrogation, modification, recommendation)
  }

  /** `_verify_reference`: the decision table on the top hit's `etat`. A failing lookup
      becomes an issue; nothing escapes. Each kind of issue carries its own description
      and recommendation; a repeal records its end date, an amendment its start date. */
  function VerifyReference(r: Reference, documentDate: Option<int>, lookup: string -> LookupResult): (issue: Option<AuditIssue>)
    ensures issue.Some? ==> issue.value.articleReference == r.fullText && issue.value.context == r.context
    ensures issue.None? <==> lookup(Query(r)).Hits? && lookup(Query(r)).hits != []
                             && Etat(lookup(Query(r)).hits[0]) != "ABROGE" && Etat(lookup(Query(r)).hits[0]) != "MODIFIE"
    ensures lookup(Query(r)).LookupFailed? <==> issue.Some? && issue.value.issueType == "verification_error"
    ensures lookup(Query(r)).LookupFailed? ==> issue.value.severity == Medium && issue.value.currentStatus == "ERREUR"
    ensures lookup(Query(r)).LookupFailed? ==>
              issue.value.description == FailureDescription(lookup(Query(r)).message)
              && issue.value.recommendation == ManualRecommendation
              && issue.value.dateAbrogation == None && issue.value.dateModification == None
    ensures lookup(Query(r)) == Hits([]) <==> issue.Some? && issue.value.issueType == "reference_not_found"
    ensures lookup(Query(r)) == Hits([]) ==> issue.value.severity == High && issue.value.currentStatus == "INCONNU"
    ensures lookup(Query(r)) == Hits([]) ==>
              issue.value.description == NotFoundDescription(r.fullText)
              && issue.value.recommendation == NotFoundRecommendation
              && issue.value.dateAbrogation == None && issue.value.dateModification == None
    ensures issue.Some? && issue.value.severity == Critical <==>
              lookup(Query(r)).Hits? && lookup(Query(r)).hits != [] && Etat(lookup(Query(r)).hits[0]) == "ABROGE"
    ensures issue.Some? && issue.value.severity == Critical ==>
              issue.value.issueType == "article_abroge" && issue.value.dateAbrogation == DateFin(lookup(Query(r)).hits[0])
    ensures issue.Some? && issue.value.issueType == "article_abroge" ==>
              issue.value.currentStatus == "ABROGE" && issue.value.dateModification == None
              && issue.value.description == ArticleDescription(r.articleNum, " abrogé")
              && issue.value.recommendation == RepealedRecommendation(DateFin(lookup(Query(r)).hits[0]))
    ensures issue.Some? && issue.value.issueType == "article_modifie" <==>
              lookup(Query(r)).Hits? && lookup(Query(r)).hits != [] && Etat(lookup(Query(r)).hits[0]) == "MODIFIE"
    ensures issue.Some? && issue.value.issueType == "article_modifie" ==>
              (issue.value.severity == High <==> AmendedAfter(documentDate, DateDebut(lookup(Query(r)).hits[0])))
              && (issue.value.severity == High || issue.value.severity == Low)
    ensures issue.Some? && issue.value.issueType == "article_modifie" ==>
              issue.value.currentStatus == "MODIFIE" && issue.value.dateAbrogation == None
              && issue.value.dateModification == RawDate(DateDebut(lookup(Query(r)).hits[0]))
    ensures issue.Some? && issue.value.issueType == "article_modifie" && issue.value.severity == High ==>
              issue.value.description == ArticleDescription(r.articleNum, " modifié après la signature du document")
              && issue.value.recommendation ==
                   AmendedAfterRecommendation(DateDebut(lookup(Query(r)).hits[0]).value.parsed.value.dayMonthYear)
    ensures issue.Some? && issue.value.issueType == "article_modifie" && issue.value.severity == Low ==>
              issue.value.description == ArticleDescription(r.articleNum, " a été modifié")
              && issue.value.recommendation == AmendedRecommendation
  {
    match lookup(Query(r))
    case LookupFailed(message) =>
      Some(MakeIssue(Medium, "verification_error", r, FailureDescription(message), "ERREUR", None, None,
                     ManualRecommendation))
    case Hits(hits) =>
      if hits == [] then
        Some(MakeIssue(High, "reference_not_found", r, NotFoundDescription(r.fullText), "INCONNU", None, None,
                       NotFoundRecommendation))
      else
        var best := hits[0];
        var etat := Etat(best);
        if etat == "ABROGE" then
          Some(MakeIssue(Critical, "article_abroge", r, ArticleDescription(r.articleNum, " abrogé"), etat,
                         DateFin(best), None, RepealedRecommendation(DateFin(best))))
        else if etat == "MODIFIE" then
          var debut := DateDebut(best);
          if AmendedAfter(documentDate, debut) then
            Some(MakeIssue(High, "article_modifie", r,
                           ArticleDescription(r.articleNum, " modifié après la signature du document"), etat,
                           None, RawDate(debut), AmendedAfterRecommendation(debut.value.parsed.value.dayMonthYear)))
          else
            Some(MakeIssue(Low, "article_modifie", r, ArticleDescription(r.articleNum, " a été modifié"), etat,
                           None, RawDate(debut), AmendedRecommendation))
        else None
  }

  /** The issues of the references, in reference order. */
  function IssuesOf(refs: seq<Reference>, documentDate: Option<int>, lookup: string -> LookupResult): seq<AuditIssue>
    decreases |refs|
  {
    if refs == [] then []
    else
      var pre := IssuesOf(refs[..|refs| - 1], documentDate, lookup);
      match VerifyReference(refs[|refs| - 1], documentDate, lookup)
      case Some(i) => pre + [i]
      case None => pre
  }

  /** Number of references that verify with no issue. */
  function ValidCount(refs: seq<Reference>, documentDate: Option<int>, lookup: string -> LookupResult): nat
    decreases |refs|
  {
    if refs == [] then 0
    else
      ValidCount(refs[..|refs| - 1], documentDate, lookup)
      + (if VerifyReference(refs[|refs| - 1], documentDate, lookup).None? then 1 else 0)
  }

  /** Every reference is either valid or yields exactly one issue. */
  lemma {:induction false} TallyIdentity(refs: seq<Reference>, documentDate: Option<int>, lookup: string -> LookupResult)
    ensures ValidCount(refs, documentDate, lookup) + |IssuesOf(refs, documentDate, lookup)| == |refs|
    decreases |refs|
  {
    if refs != [] {
      TallyIdentity(refs[..|refs| - 1], documentDate, lookup);
    }
  }

  /** A lookup that fails for one query only changes the verdicts of the references that
      send that query, and those become `verification_error` issues. */
  lemma FailureIsolated(r: Reference, documentDate: Option<int>, lookup: string -> LookupResult, bad: string, msg: string)
    ensures var broken := (q: string) => if q == bad then LookupFailed(msg) else lookup(q);
            if Query(r) == bad then
              VerifyReference(r, documentDate, broken).Some?
              && VerifyReference(r, documentDate, broken).value.issueType == "verification_error"
            else VerifyReference(r, documentDate, broken) == VerifyReference(r, documentDate, lookup)
  {
  }

  /** The per-reference loop of `audit`. */
  method VerifyAll(refs: seq<Reference>, documentDate: Option<int>, lookup: string -> LookupResult)
    returns (issues: seq<AuditIssue>, validRefs: nat)
    ensures issues == IssuesOf(refs, documentDate, lookup)
    ensures validRefs == ValidCount(refs, documentDate, lookup)
    ensures validRefs + |issues| == |refs|
  {
    issues, validRefs := [], 0;
    for i := 0 to |refs|
      invariant issues == IssuesOf(refs[..i], documentDate, lookup)
      invariant validRefs == ValidCount(refs[..i], documentDate, lookup)
      invariant validRefs + |issues| == i
    {
      assert refs[..i + 1][..i] == refs[..i];
      var issue := VerifyReference(refs[i], documentDate, lookup);
      if issue.Some? {
        issues := issues + [issue.value];
      } else {
        validRefs := validRefs + 1;
      }
    }
    assert refs[..|refs|] == refs;
  }

  // ---------------------------------------------------------------------------
  // Score and recommendations
  // ---------------------------------------------------------------------------

  /** `valid_refs / total_refs * 100`, or 100 when there is no reference. */
  function ConformityScore(valid: nat, total: nat): (s: real)
    ensures valid <= total ==> 0.0 <= s <= 100.0
    ensures total == 0 ==> s == 100.0
    ensures total > 0 ==> s * (total as real) == 100.0 * (valid as real)
  {
    if total > 0 then
      var s := (valid as real) / (total as real) * 100.0;
      assert s * (total as real) == 100.0 * (valid as real);
      s
    else 100.0
  }

  const ConformMessage := "✅ Le document est conforme. Aucune mise à jour nécessaire."
  const NoModelMessages := ["⚠️ Des problèmes de conformité ont été détectés.",
                            "Consulter la liste des problèmes ci-dessus pour plus de détails."]
  const FallbackMessages := ["⚠️ Impossible de générer des recommandations automatiques.",
                             "Consulter la liste des problèmes pour identifier les mises à jour nécessaires."]

  /** The characters of "🔴🟠🟡🟢🔵⚠️✅📝🔍"; the warning sign brings its variation selector. */
  const Markers: seq<char> :=
    ['\U{1F534}', '\U{1F7E0}', '\U{1F7E1}', '\U{1F7E2}', '\U{1F535}', '\U{26A0}', '\U{FE0F}',
     '\U{2705}', '\U{1F4DD}', '\U{1F50D}']

  predicate HasMarker(line: string) {
    exists i :: 0 <= i < |line| && line[i] in Markers
  }

  /** The filter of the generator's reply, applied to one line. */
  predicate KeepLine(line: string) {
    var t := Strip(line);
    t != "" && (StartsWith(t, "-") || StartsWith(t, "•") || HasMarker(line))
  }

  /** A kept recommendation: non-empty, stripped, and a bullet or a line with a marker. */
  predicate IsRecommendationLine(t: string) {
    t != "" && IsStripped(t) && (StartsWith(t, "-") || StartsWith(t, "•") || HasMarker(t))
  }

  lemma MarkerSurvivesStrip(line: string)
    requires HasMarker(line)
    ensures HasMarker(Strip(line))
  {
    var i :| 0 <= i < |line| && line[i] in Markers;
    var t := LStrip(line);
    var lead := LeadingSpaces(line);
    assert !IsSpace(line[i]);
    assert i >= lead;
    assert t[i - lead] == line[i];
    var trail := TrailingSpaces(t);
    assert i - lead < |t| - trail;
    assert Strip(line)[i - lead] == line[i];
  }

  /** The stripped lines the filter keeps, in order. */
  function KeptLines(lines: seq<string>): (r: seq<string>)
    ensures |r| <= |lines|
    ensures forall t :: t in r ==> IsRecommendationLine(t)
    decreases |lines|
  {
    if lines == [] then []
    else
      var pre := KeptLines(lines[..|lines| - 1]);
      var l := lines[|lines| - 1];
      if KeepLine(l) then
        assert HasMarker(l) ==> HasMarker(Strip(l)) by {
          if HasMarker(l) { MarkerSurvivesStrip(l); }
        }
        pre + [Strip(l)]
      else pre
  }

  /** The comprehension over the reply's lines: the lines the filter keeps, each
      stripped, in order. */
  lemma {:induction false} KeptLinesSpec(lines: seq<string>)
    decreases |lines|
    ensures KeptLines(lines) == Map(Filter(lines, KeepLine), Strip)
  {
    if lines != [] {
      var pre := lines[..|lines| - 1];
      var l := lines[|lines| - 1];
      KeptLinesSpec(pre);
      var f := Filter(pre, KeepLine);
      assert Filter(lines, KeepLine) == f + (if KeepLine(l) then [l] else []);
      if KeepLine(l) {
        var whole := Map(f + [l], Strip);
        var parts := Map(f, Strip) + [Strip(l)];
        assert |whole| == |parts|;
        forall i | 0 <= i < |whole| ensures whole[i] == parts[i] {
          if i < |f| {
            assert (f + [l])[i] == f[i];
          }
        }
      }
    }
  }

  /** Nothing is kept exactly when no line passes the filter. */
  lemma KeptLinesEmpty(lines: seq<string>)
    ensures KeptLines(lines) == [] <==> forall l :: l in lines ==> !KeepLine(l)
  {
    KeptLinesSpec(lines);
    FilterMembers(lines, KeepLine);
    if Filter(lines, KeepLine) != [] {
      assert Filter(lines, KeepLine)[0] in Filter(lines, KeepLine);
    }
  }

  /** `_generate_recommendations`. The generator is only asked when there are issues and
      a model is configured; its reply is split into lines and filtered, and every failure
      falls back to fixed lines. */
  function GenerateRecommendations(issues: seq<AuditIssue>, modelAvailable: bool, reply: Generation): (recs: seq<string>)
    ensures |recs| >= 1
    ensures issues == [] ==> recs == [ConformMessage]
    ensures issues != [] && !modelAvailable ==> recs == NoModelMessages
    ensures issues != [] && modelAvailable && (!reply.Generated? || Strip(reply.text) == "") ==> recs == FallbackMessages
    ensures issues != [] && modelAvailable && reply.Generated? && Strip(reply.text) != "" ==>
              var lines := Split(Strip(reply.text), '\n');
              if exists l :: l in lines && KeepLine(l)
              then recs == Map(Filter(lines, KeepLine), Strip) && forall t :: t in recs ==> IsRecommendationLine(t)
              else recs == [Strip(reply.text)]
  {
    if !modelAvailable || issues == [] then
      if issues == [] then [ConformMessage] else NoModelMessages
    else
      match reply
      case Generated(raw) =>
        var text := Strip(raw);
        if text == "" then FallbackMessages
        else
          var lines := Split(text, '\n');
          var recs := KeptLines(lines);
          KeptLinesSpec(lines);
          KeptLinesEmpty(lines);
          if recs != [] then recs
          else [text]
      case NoReply => FallbackMessages
      case NoText => FallbackMessages
      case GenerationFailed(_, _) => FallbackMessages
  }

  // ---------------------------------------------------------------------------
  // The audit pipeline
  // ---------------------------------------------------------------------------

  const UntitledDocument := "Document sans titre"
  const NoContentMessage := "⚠️ Aucun contenu fourni pour l'audit. Veuillez fournir contract_text ou document_content."
  const EmptyDocumentMessage := "⚠️ Le document est vide ou n'a pas pu être lu."
  const FileErrorPrefix := "❌ Erreur lors de l'extraction du fichier : "

  /** `_extract_document_date`: the date given in the request. The content patterns it
      searches never yield a date, so a request without a date has none. */
  function ExtractDocumentDate(req: AuditRequest): (d: Option<int>)
    ensures req.documentDate.None? ==> d.None?
    ensures req.documentDate.Some? ==> d == req.documentDate
  {
    if req.documentDate.Some? then req.documentDate else None
  }

  /** `request.contract_text or request.document_content or ""`. */
  function RequestContent(req: AuditRequest): string {
    if Truthy(req.contractText) then req.contractText.value
    else if Truthy(req.documentContent) then req.documentContent.value
    else ""
  }

  /** A request `AuditRequest` accepts never takes the "no content" exit of `audit`. */
  lemma ValidatedRequestHasContent(req: AuditRequest)
    requires NewAuditRequest(req).Ok?
    ensures RequestContent(req) != "" || Truthy(req.documentFilePath)
  {
  }

  /** Steps 2 to 5 of `audit` on a non-blank text: extract the references, verify each,
      score, and write the recommendations. */
  method AnalyseContent(content: string, matches: seq<seq<RawMatch>>, documentDate: Option<int>,
                        lookup: string -> LookupResult, modelAvailable: bool, reply: Generation)
    returns (totalRefs: nat, issues: seq<AuditIssue>, validRefs: nat, score: real, recommendations: seq<string>)
    requires WellFormed(content, matches)
    ensures var refs := Extract(content, matches);
            && totalRefs == |refs|
            && issues == IssuesOf(refs, documentDate, lookup)
            && validRefs == ValidCount(refs, documentDate, lookup)
            && score == ConformityScore(validRefs, totalRefs)
            && recommendations == GenerateRecommendations(issues, modelAvailable, reply)
    ensures validRefs + |issues| == totalRefs
    ensures 0.0 <= score <= 100.0
    ensures |recommendations| >= 1
  {
    var references := ExtractLegalReferences(content, matches);
    issues, validRefs := VerifyAll(references, documentDate, lookup);
    totalRefs := |references|;
    score := ConformityScore(validRefs, totalRefs);
    recommendations := GenerateRecommendations(issues, modelAvailable, reply);
  }

  /** `audit`. `fileText` is what extracting the file at `document_file_path` gives (its
      text, or the error's "Type: message"); `recognize` runs the seven recognizers;
      `lookup` is the search service; `reply` is the generator's answer; `now` is the
      clock. */
  method Audit(req: AuditRequest, fileText: Result<string, string>,
               recognize: string -> seq<seq<RawMatch>>, lookup: string -> LookupResult,
               modelAvailable: bool, reply: Generation, now: int) returns (resp: AuditResponse)
    requires forall t :: WellFormed(t, recognize(t))
    ensures NewAuditResponse(resp.documentTitle, resp.auditDate, resp.documentDate, resp.totalReferences,
                             resp.validReferences, resp.issues, resp.conformityScore, resp.recommendations).Ok?
    ensures resp.validReferences + |resp.issues| == resp.totalReferences
    ensures |resp.recommendations| >= 1
    ensures resp.documentTitle == if Truthy(req.documentTitle) then req.documentTitle.value else UntitledDocument
    ensures RequestContent(req) == "" && !Truthy(req.documentFilePath) ==>
              resp.totalReferences == 0 && resp.conformityScore == 100.0 && resp.recommendations == [NoContentMessage]
    ensures Truthy(req.documentFilePath) && fileText.Err? ==>
              resp.totalReferences == 0 && resp.conformityScore == 0.0
              && resp.recommendations == [FileErrorPrefix + fileText.error]
    ensures var content := if Truthy(req.documentFilePath) && fileText.Ok? then fileText.value else RequestContent(req);
            (RequestContent(req) != "" || Truthy(req.documentFilePath)) && (!Truthy(req.documentFilePath) || fileText.Ok?) ==>
              if AllSpace(content) then
                resp.totalReferences == 0 && resp.conformityScore == 100.0 && resp.recommendations == [EmptyDocumentMessage]
              else
                var refs := Extract(content, recognize(content));
                && resp.totalReferences == |refs|
                && resp.issues == IssuesOf(refs, req.documentDate, lookup)
                && resp.validReferences == ValidCount(refs, req.documentDate, lookup)
                && resp.conformityScore == ConformityScore(ValidCount(refs, req.documentDate, lookup), |refs|)
                && resp.recommendations == GenerateRecommendations(resp.issues, modelAvailable, reply)
  {
    var title := if Truthy(req.documentTitle) then req.documentTitle.value else UntitledDocument;
    var content := RequestContent(req);
    if content == "" && !Truthy(req.documentFilePath) {
      return AuditResponse(title, now, req.documentDate, 0, 0, [], 100.0, [NoContentMessage]);
    }
    if Truthy(req.documentFilePath) {
      match fileText {
        case Err(e) =>
          return AuditResponse(title, now, req.documentDate, 0, 0, [], 0.0, [FileErrorPrefix + e]);
        case Ok(t) =>
          content := t;
      }
    }
    resp := AuditText(title, now, req, content, recognize(content), lookup, modelAvailable, reply);
  }

  /** `audit` once the text is known: the blank-text exit, else the analysis. */
  method AuditText(title: string, now: int, req: AuditRequest, content: string,
                   matches: seq<seq<RawMatch>>, lookup: string -> LookupResult,
                   modelAvailable: bool, reply: Generation) returns (resp: AuditResponse)
    requires WellFormed(content, matches)
    ensures 0.0 <= resp.conformityScore <= 100.0
    ensures resp.documentTitle == title
    ensures resp.validReferences + |resp.issues| == resp.totalReferences
    ensures |resp.recommendations| >= 1
    ensures AllSpace(content) ==>
              resp.totalReferences == 0 && resp.conformityScore == 100.0 && resp.recommendations == [EmptyDocumentMessage]
    ensures !AllSpace(content) ==>
              var refs := Extract(content, matches);
              && resp.totalReferences == |refs|
              && resp.issues == IssuesOf(refs, req.documentDate, lookup)
              && resp.validReferences == ValidCount(refs, req.documentDate, lookup)
              && resp.conformityScore == ConformityScore(ValidCount(refs, req.documentDate, lookup), |refs|)
              && resp.recommendations == GenerateRecommendations(resp.issues, modelAvailable, reply)
  {
    if content == "" || Strip(content) == "" {
      return AuditResponse(title, now, req.documentDate, 0, 0, [], 100.0, [EmptyDocumentMessage]);
    }
    var documentDate := ExtractDocumentDate(req);
    var totalRefs, issues, validRefs, score, recommendations :=
      AnalyseContent(content, matches, documentDate, lookup, modelAvailable, reply);
    resp := AuditResponse(title, now, documentDate, totalRefs, validRefs, issues, score, recommendations);
  }
}
