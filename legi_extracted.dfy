/**
 * Ingestion of codes from an extracted LEGI archive
 * (rag-juridique/ingestion/ingest_from_legi_extracted.py): locating a code's directory,
 * directly from its id or by searching the archive (the search result cached per archive
 * root), parsing its XML files up to `max_articles` articles, and the command-line driver.
 *
 * A path is the sequence of its parts; its text is the parts joined by one separator, so
 * `len(str(path))` is the length of that text. The archive is a value: the directories
 * that exist, what each directory walk or listing yields, and the articles parsed from the
 * XML files found under each code directory. Walk and listing errors are not modelled.
 */
module LegiExtraction {
  import opened Wrappers
  import opened Strings
  import MassiveIngestion

  type Path = seq<string>

  /** `path.name`: the last part. */
  function Name(p: Path): string {
    if p == [] then "" else p[|p| - 1]
  }

  /** `str(path)`. */
  function PathText(p: Path): string {
    Join(p, "/")
  }

  /** An article as the XML parser returns it; every key may be missing. */
  datatype LegiArticle = LegiArticle(
    id: Option<string>,
    num: Option<string>,
    content: Option<string>,
    breadcrumb: Option<string>,
    dateDebut: Option<string>,
    dateFin: Option<string>,
    etat: Option<string>)

  /** The extracted archive as the file system shows it. */
  datatype Archive = Archive(
    dirs: set<Path>,                          // the directories that exist
    textWalk: seq<Path>,                      // `rglob("LEGITEXT*")` under <root>/LEGI/TEXT
    legiListing: seq<Path>,                   // `iterdir()` of <root>/LEGI
    rootListing: seq<Path>,                   // `iterdir()` of <root>
    rootWalk: seq<Path>,                      // `rglob("LEGITEXT*")` under <root>
    xmlFiles: map<Path, seq<seq<LegiArticle>>>) // per code directory, the articles of each XML file

  /** The code table, in its order: (code id, code name). */
  const CodeMapping: seq<(string, string)> := [
    ("LEGITEXT000006070721", "Code civil"),
    ("LEGITEXT000006070716", "Code pénal"),
    ("LEGITEXT000006072050", "Code du travail"),
    ("LEGITEXT000005634379", "Code de commerce"),
    ("LEGITEXT000006071164", "Code de procédure civile"),
    ("LEGITEXT000006071165", "Code de procédure pénale"),
    ("LEGITEXT000006073189", "Code de la sécurité sociale")
  ]

  const CodePrefix: string := "LEGITEXT"
  const LegiSource: string := "Freemium LEGI"
  const MaxSearchDepth: nat := 10

  // ---------------------------------------------------------------------------
  // Keeping the longest path per directory name
  // ---------------------------------------------------------------------------

  /** The names of `paths`, each once, in the order they are first seen (the keys of
      the `by_name` dictionary). */
  function NamesOf(paths: seq<Path>): seq<string>
    decreases |paths|
  {
    if paths == [] then []
    else
      var init := NamesOf(paths[..|paths| - 1]);
      var last := paths[|paths| - 1];
      if Name(last) in init then init else init + [Name(last)]
  }

  /** The paths named `name`, in order (the list `by_name[name]`). */
  function Group(paths: seq<Path>, name: string): seq<Path>
    decreases |paths|
  {
    if paths == [] then []
    else
      var init := Group(paths[..|paths| - 1], name);
      var last := paths[|paths| - 1];
      if Name(last) == name then init + [last] else init
  }

  /** No name is listed twice. */
  lemma {:induction false} NamesOfDistinct(paths: seq<Path>)
    decreases |paths|
    ensures forall i, j :: 0 <= i < j < |NamesOf(paths)| ==> NamesOf(paths)[i] != NamesOf(paths)[j]
  {
    if paths != [] {
      var init := NamesOf(paths[..|paths| - 1]);
      NamesOfDistinct(paths[..|paths| - 1]);
      var r := NamesOf(paths);
      forall i, j | 0 <= i < j < |r|
        ensures r[i] != r[j]
      {
        var last := Name(paths[|paths| - 1]);
        assert r == if last in init then init else init + [last];
        if j < |init| {
          assert r[i] == init[i] && r[j] == init[j];
        } else {
          assert r[i] == init[i] && init[i] in init && r[j] == last;
        }
      }
    }
  }

  /** The names listed are exactly the names of the paths, and each has a non-empty group. */
  lemma {:induction false} NamesOfMembers(paths: seq<Path>)
    decreases |paths|
    ensures forall p :: p in paths ==> Name(p) in NamesOf(paths)
    ensures forall n :: n in NamesOf(paths) ==> Group(paths, n) != []
    ensures forall n :: n !in NamesOf(paths) ==> Group(paths, n) == []
  {
    if paths != [] {
      var init := paths[..|paths| - 1];
      NamesOfMembers(init);
      assert forall p :: p in paths ==> p in init || p == paths[|paths| - 1];
      forall n | n in NamesOf(paths)
        ensures Group(paths, n) != []
      {
        if n in NamesOf(init) {
          assert Group(init, n) != [];
        }
      }
      forall n | n !in NamesOf(paths)
        ensures Group(paths, n) == []
      {
        assert n !in NamesOf(init);
      }
    }
  }

  /** The group of `name` holds exactly the paths of that name. */
  lemma {:induction false} GroupMembers(paths: seq<Path>, name: string)
    decreases |paths|
    ensures forall p :: p in Group(paths, name) <==> p in paths && Name(p) == name
  {
    if paths != [] {
      var init := paths[..|paths| - 1];
      GroupMembers(init, name);
      assert forall p :: p in paths <==> p in init || p == paths[|paths| - 1];
    }
  }

  /** `max(dirs, key=lambda x: len(str(x)))`: the first path of greatest text length. */
  function Longest(dirs: seq<Path>): (r: Path)
    requires dirs != []
    decreases |dirs|
    ensures r in dirs
    ensures forall p :: p in dirs ==> |PathText(p)| <= |PathText(r)|
    ensures |PathText(dirs[0])| == |PathText(r)| ==> r == dirs[0]
  {
    if |dirs| == 1 then dirs[0]
    else
      var best := Longest(dirs[1..]);
      assert forall p :: p in dirs ==> p == dirs[0] || p in dirs[1..];
      if |PathText(best)| > |PathText(dirs[0])| then best else dirs[0]
  }

  /** For each name, in first-seen order, its longest path. */
  function LongestPerName(paths: seq<Path>, names: seq<string>): (r: seq<Path>)
    requires forall n :: n in names ==> Group(paths, n) != []
    decreases |names|
    ensures |r| == |names|
  {
    if names == [] then []
    else
      var last := names[|names| - 1];
      LongestPerName(paths, names[..|names| - 1]) + [Longest(Group(paths, last))]
  }

  lemma {:induction false} LongestPerNameEach(paths: seq<Path>, names: seq<string>)
    requires forall n :: n in names ==> Group(paths, n) != []
    decreases |names|
    ensures forall i :: 0 <= i < |names| ==>
      LongestPerName(paths, names)[i] == Longest(Group(paths, names[i]))
  {
    if names != [] {
      LongestPerNameEach(paths, names[..|names| - 1]);
    }
  }

  /** The deduplicated directories: the longest path of each name, names in first-seen order. */
  function Deduplicated(paths: seq<Path>): seq<Path>
  {
    NamesOfMembers(paths);
    LongestPerName(paths, NamesOf(paths))
  }

  /** The kept path of each name is the longest of that name's group. */
  lemma DeduplicatedEach(paths: seq<Path>)
    ensures |Deduplicated(paths)| == |NamesOf(paths)|
    ensures forall i :: 0 <= i < |NamesOf(paths)| ==>
      && Deduplicated(paths)[i] in paths
      && Name(Deduplicated(paths)[i]) == NamesOf(paths)[i]
      && LongestOfName(paths, Deduplicated(paths)[i])
  {
    var names := NamesOf(paths);
    NamesOfMembers(paths);
    LongestPerNameEach(paths, names);
    var r := Deduplicated(paths);
    forall i | 0 <= i < |names|
      ensures r[i] in paths && Name(r[i]) == names[i]
      ensures LongestOfName(paths, r[i])
    {
      GroupMembers(paths, names[i]);
      assert r[i] == Longest(Group(paths, names[i]));
    }
  }

  /** `q` is at least as long as every path of `paths` with the same name. */
  predicate LongestOfName(paths: seq<Path>, q: Path) {
    forall p :: p in paths && Name(p) == Name(q) ==> |PathText(p)| <= |PathText(q)|
  }

  /** `r` holds one path per name of `paths`, each an input at least as long as every
      input of the same name. */
  predicate KeepsLongest(paths: seq<Path>, r: seq<Path>) {
    && (forall i :: 0 <= i < |r| ==> r[i] in paths && LongestOfName(paths, r[i]))
    && DistinctNames(r)
    && CoversNames(paths, r)
  }

  predicate DistinctNames(r: seq<Path>) {
    forall i, j :: 0 <= i < j < |r| ==> Name(r[i]) != Name(r[j])
  }

  /** Every name of `paths` is the name of some path of `r`. */
  predicate CoversNames(paths: seq<Path>, r: seq<Path>) {
    forall p :: p in paths ==> exists i :: 0 <= i < |r| && Name(r[i]) == Name(p)
  }

  /**
   * Deduplication keeps exactly one path per directory name: every kept path is one of
   * the inputs, no two kept paths share a name, every input name is kept, and the kept
   * path is at least as long as every input of the same name.
   */
  lemma DeduplicatedKeepsLongest(paths: seq<Path>)
    ensures KeepsLongest(paths, Deduplicated(paths))
  {
    var names := NamesOf(paths);
    var r := Deduplicated(paths);
    DeduplicatedEach(paths);
    NamesOfDistinct(paths);
    NamesOfMembers(paths);
    forall p | p in paths
      ensures exists i :: 0 <= i < |r| && Name(r[i]) == Name(p)
    {
      var i :| 0 <= i < |names| && names[i] == Name(p);
      assert Name(r[i]) == Name(p);
    }
    forall i, j | 0 <= i < j < |r| ensures Name(r[i]) != Name(r[j]) {
      assert Name(r[i]) == names[i] && Name(r[j]) == names[j];
    }
  }

  /** One more path: its name is added when new, and it joins its own group. */
  lemma GroupingStep(paths: seq<Path>, i: nat, n: string)
    requires i < |paths|
    ensures NamesOf(paths[..i + 1]) ==
      if Name(paths[i]) in NamesOf(paths[..i]) then NamesOf(paths[..i])
      else NamesOf(paths[..i]) + [Name(paths[i])]
    ensures Group(paths[..i + 1], n) ==
      if n == Name(paths[i]) then Group(paths[..i], n) + [paths[i]] else Group(paths[..i], n)
  {
    assert paths[..i + 1][..i] == paths[..i];
  }

  /**
   * The `by_name` grouping followed by the `max` of each group, as the loop does it: the
   * groups are filled in one pass, then the longest of each is taken in key order.
   */
  method KeepLongest(paths: seq<Path>) returns (r: seq<Path>)
    ensures r == Deduplicated(paths)
  {
    var order, byName := GroupByName(paths);
    NamesOfMembers(paths);
    r := LongestOfGroups(paths, order, byName);
  }

  /** The grouping pass: the names in first-seen order and each name's paths. */
  method GroupByName(paths: seq<Path>) returns (order: seq<string>, byName: map<string, seq<Path>>)
    ensures order == NamesOf(paths)
    ensures forall n :: n in byName <==> n in order
    ensures forall n :: n in byName ==> byName[n] == Group(paths, n)
  {
    order := [];
    byName := map[];
    for i := 0 to |paths|
      invariant order == NamesOf(paths[..i])
      invariant forall n :: n in byName <==> n in order
      invariant forall n :: n in byName ==> byName[n] == Group(paths[..i], n)
    {
      var d := paths[i];
      GroupsStep(paths, i, order, byName);
      if Name(d) !in byName {
        order := order + [Name(d)];
        byName := byName[Name(d) := [d]];
      } else {
        byName := byName[Name(d) := byName[Name(d)] + [d]];
      }
    }
    assert paths[..|paths|] == paths;
  }

  /** Adding one path to the grouping of the paths before it groups one more path. */
  lemma GroupsStep(paths: seq<Path>, i: nat, order: seq<string>, byName: map<string, seq<Path>>)
    requires i < |paths|
    requires order == NamesOf(paths[..i])
    requires forall n :: n in byName <==> n in order
    requires forall n :: n in byName ==> byName[n] == Group(paths[..i], n)
    ensures var d := paths[i];
            var order' := if Name(d) in byName then order else order + [Name(d)];
            var byName' := if Name(d) in byName then byName[Name(d) := byName[Name(d)] + [d]]
                           else byName[Name(d) := [d]];
            && order' == NamesOf(paths[..i + 1])
            && (forall n :: n in byName' <==> n in order')
            && (forall n :: n in byName' ==> byName'[n] == Group(paths[..i + 1], n))
  {
    var d := paths[i];
    GroupingStep(paths, i, Name(d));
    NamesOfMembers(paths[..i]);
    var byName' := if Name(d) in byName then byName[Name(d) := byName[Name(d)] + [d]]
                   else byName[Name(d) := [d]];
    forall n | n in byName' ensures byName'[n] == Group(paths[..i + 1], n) {
      GroupingStep(paths, i, n);
      if n != Name(d) {
        assert byName'[n] == byName[n];
      } else if Name(d) !in byName {
        assert Name(d) !in order;
        assert Group(paths[..i], n) == [];
      }
    }
  }

  /** The `max` pass: the longest path of each group, in key order. */
  method LongestOfGroups(paths: seq<Path>, order: seq<string>, byName: map<string, seq<Path>>)
      returns (r: seq<Path>)
    requires forall n :: n in order ==> n in byName && byName[n] == Group(paths, n) && Group(paths, n) != []
    ensures r == LongestPerName(paths, order)
  {
    r := [];
    for k := 0 to |order|
      invariant r == LongestPerName(paths, order[..k])
    {
      assert order[..k + 1][..k] == order[..k];
      r := r + [Longest(byName[order[k]])];
    }
    assert order[..|order|] == order;
  }

  // ---------------------------------------------------------------------------
  // Searching the archive
  // ---------------------------------------------------------------------------

  /** The entries that are directories named `LEGITEXT…`, in order. */
  function CodeDirsAmong(entries: seq<Path>, a: Archive): (r: seq<Path>)
    decreases |entries|
    ensures forall p :: p in r <==> p in entries && p in a.dirs && StartsWith(Name(p), CodePrefix)
  {
    if entries == [] then []
    else
      var init := CodeDirsAmong(entries[..|entries| - 1], a);
      var last := entries[|entries| - 1];
      assert forall p :: p in entries <==> p in entries[..|entries| - 1] || p == last;
      if last in a.dirs && StartsWith(Name(last), CodePrefix) then init + [last] else init
  }

  /** The entries at most `MaxSearchDepth` parts below `root`. */
  function Shallow(entries: seq<Path>, root: Path): (r: seq<Path>)
    decreases |entries|
    ensures forall p :: p in r <==> p in entries && |p| - |root| <= MaxSearchDepth
  {
    if entries == [] then []
    else
      var init := Shallow(entries[..|entries| - 1], root);
      var last := entries[|entries| - 1];
      assert forall p :: p in entries <==> p in entries[..|entries| - 1] || p == last;
      if |last| - |root| <= MaxSearchDepth then init + [last] else init
  }

  /**
   * `find_code_directories`: nothing when the root is missing; otherwise the first of
   * four searches that finds a code directory, the two recursive walks deduplicated by
   * name: the walk of LEGI/TEXT, the listing of LEGI, the listing of the root, then the
   * walk of the root limited to 10 levels.
   */
  function CodeDirectories(root: Path, a: Archive): (r: seq<Path>)
    ensures root !in a.dirs ==> r == []
    ensures forall p :: p in r ==> p in a.dirs && StartsWith(Name(p), CodePrefix)
  {
    if root !in a.dirs then []
    else
      var fromText := if root + ["LEGI", "TEXT"] in a.dirs then CodeDirsAmong(a.textWalk, a) else [];
      var fromLegi := if root + ["LEGI"] in a.dirs then CodeDirsAmong(a.legiListing, a) else [];
      var fromRoot := CodeDirsAmong(a.rootListing, a);
      var fromWalk := Shallow(CodeDirsAmong(a.rootWalk, a), root);
      if fromText != [] then
        DeduplicatedKeepsLongest(fromText);
        Deduplicated(fromText)
      else if fromLegi != [] then fromLegi
      else if fromRoot != [] then fromRoot
      else
        DeduplicatedKeepsLongest(fromWalk);
        Deduplicated(fromWalk)
  }

  /** A walk that finds code directories yields one directory per name. */
  lemma CodeDirectoriesFromWalkDistinct(root: Path, a: Archive)
    requires root in a.dirs && root + ["LEGI", "TEXT"] in a.dirs
    requires CodeDirsAmong(a.textWalk, a) != []
    ensures var r := CodeDirectories(root, a);
      forall i, j :: 0 <= i < j < |r| ==> Name(r[i]) != Name(r[j])
  {
    DeduplicatedKeepsLongest(CodeDirsAmong(a.textWalk, a));
  }

  /** `find_code_directories`, with its deduplication loop. */
  method FindCodeDirectories(root: Path, a: Archive) returns (r: seq<Path>)
    ensures r == CodeDirectories(root, a)
  {
    if root !in a.dirs {
      return [];
    }
    var fromText := if root + ["LEGI", "TEXT"] in a.dirs then CodeDirsAmong(a.textWalk, a) else [];
    if fromText != [] {
      r := KeepLongest(fromText);
      return;
    }
    var fromLegi := if root + ["LEGI"] in a.dirs then CodeDirsAmong(a.legiListing, a) else [];
    if fromLegi != [] {
      return fromLegi;
    }
    var fromRoot := CodeDirsAmong(a.rootListing, a);
    if fromRoot != [] {
      return fromRoot;
    }
    var fromWalk := Shallow(CodeDirsAmong(a.rootWalk, a), root);
    r := KeepLongest(fromWalk);
  }

  // ---------------------------------------------------------------------------
  // The direct path of a code
  // ---------------------------------------------------------------------------

  /** The first `k` two-character pieces of `num`. */
  function Pieces(num: string, k: nat): (r: seq<string>)
    requires 2 * k <= |num|
    ensures |r| == k
    ensures forall j :: 0 <= j < k ==> r[j] == num[2 * j..2 * j + 2]
  {
    if k == 0 then [] else Pieces(num, k - 1) + [num[2 * (k - 1)..2 * k]]
  }

  function Concat(parts: seq<string>): string
    decreases |parts|
  {
    if parts == [] then "" else Concat(parts[..|parts| - 1]) + parts[|parts| - 1]
  }

  lemma ConcatSnoc(parts: seq<string>, x: string)
    ensures Concat(parts + [x]) == Concat(parts) + x
  {
    assert (parts + [x])[..|parts|] == parts;
  }

  lemma SliceJoin(s: string, m: nat, n: nat)
    requires m <= n <= |s|
    ensures s[..m] + s[m..n] == s[..n]
  {
  }

  /** The pieces, put back together, are the first `2k` characters. */
  lemma {:induction false} PiecesConcat(num: string, k: nat)
    requires 2 * k <= |num|
    ensures Concat(Pieces(num, k)) == num[..2 * k]
  {
    if k > 0 {
      PiecesConcat(num, k - 1);
      var m := 2 * (k - 1);
      ConcatSnoc(Pieces(num, k - 1), num[m..m + 2]);
      SliceJoin(num, m, m + 2);
    }
  }

  /** The digits of a code id: the id with every `LEGITEXT` removed. */
  function CodeNumber(codeId: string): string {
    Replace(codeId, CodePrefix, "")
  }

  /** Whether a code id has a direct path: it starts with `LEGITEXT` and has at least 10
      characters left once that is removed. */
  predicate HasDirectPath(codeId: string) {
    StartsWith(codeId, CodePrefix) && |CodeNumber(codeId)| >= 10
  }

  /** The path built from the id: LEGI/TEXT, the first 10 digits in five 2-character
      levels, then the id. */
  function DirectPath(root: Path, codeId: string): (r: Path)
    requires HasDirectPath(codeId)
    ensures |r| == |root| + 8 && r[..|root|] == root
    ensures r[|root|] == "LEGI" && r[|root| + 1] == "TEXT" && r[|root| + 7] == codeId
    ensures forall j :: |root| + 2 <= j < |root| + 7 ==> |r[j]| == 2
    ensures Concat(r[|root| + 2..|root| + 7]) == CodeNumber(codeId)[..10]
  {
    var num := CodeNumber(codeId);
    var r := root + ["LEGI", "TEXT"] + Pieces(num, 5) + [codeId];
    assert r[|root| + 2..|root| + 7] == Pieces(num, 5);
    PiecesConcat(num, 5);
    r
  }

  /** The direct-path construction with its loop over the five levels. */
  method BuildDirectPath(root: Path, codeId: string) returns (r: Option<Path>)
    ensures r.Some? <==> HasDirectPath(codeId)
    ensures r.Some? ==> r.value == DirectPath(root, codeId)
  {
    if !StartsWith(codeId, CodePrefix) {
      return None;
    }
    var num := CodeNumber(codeId);
    if |num| < 10 {
      return None;
    }
    var path := root + ["LEGI", "TEXT"];
    for k := 0 to 5
      invariant path == root + ["LEGI", "TEXT"] + Pieces(num, k)
    {
      path := path + [num[2 * k..2 * k + 2]];
    }
    r := Some(path + [codeId]);
  }

  // ---------------------------------------------------------------------------
  // Parsing a code's files
  // ---------------------------------------------------------------------------

  function Flatten<T>(files: seq<seq<T>>): seq<T>
    decreases |files|
  {
    if files == [] then [] else files[0] + Flatten(files[1..])
  }

  /** What the parsing loop holds after `acc` and the `files` still to read: each file's
      articles are appended, and once there are at least `max_articles` of them the list
      is cut to that many and reading stops. */
  function ParsedFrom(acc: seq<LegiArticle>, files: seq<seq<LegiArticle>>, maxArticles: Option<int>): seq<LegiArticle>
    decreases |files|
  {
    if files == [] then acc
    else
      var next := acc + files[0];
      if MassiveIngestion.Limited(maxArticles) && |next| >= maxArticles.value then
        MassiveIngestion.PyTake(next, maxArticles.value)
      else ParsedFrom(next, files[1..], maxArticles)
  }

  /** Without a limit every article is kept in order; with a positive limit the result is
      the first `max_articles` articles, or all of them when there are fewer. */
  lemma {:induction false} ParsedFromIsPrefix(acc: seq<LegiArticle>, files: seq<seq<LegiArticle>>, maxArticles: Option<int>)
    requires !MassiveIngestion.Limited(maxArticles) || (maxArticles.value > 0 && |acc| < maxArticles.value)
    decreases |files|
    ensures !MassiveIngestion.Limited(maxArticles) ==> ParsedFrom(acc, files, maxArticles) == acc + Flatten(files)
    ensures MassiveIngestion.Limited(maxArticles) ==>
      var all := acc + Flatten(files);
      ParsedFrom(acc, files, maxArticles) == all[..MassiveIngestion.Min(maxArticles.value, |all|)]
  {
    if files == [] {
      assert acc + Flatten(files) == acc;
    } else {
      var next := acc + files[0];
      assert acc + Flatten(files) == next + Flatten(files[1..]);
      if !(MassiveIngestion.Limited(maxArticles) && |next| >= maxArticles.value) {
        ParsedFromIsPrefix(next, files[1..], maxArticles);
      } else {
        var all := next + Flatten(files[1..]);
        assert next == all[..|next|];
      }
    }
  }

  /** The parsing loop of `ingest_code_from_legi`. */
  method ParseArticles(files: seq<seq<LegiArticle>>, maxArticles: Option<int>) returns (all: seq<LegiArticle>)
    ensures all == ParsedFrom([], files, maxArticles)
    ensures !MassiveIngestion.Limited(maxArticles) ==> all == Flatten(files)
    ensures MassiveIngestion.Limited(maxArticles) && maxArticles.value > 0 ==>
      all == Flatten(files)[..MassiveIngestion.Min(maxArticles.value, |Flatten(files)|)]
  {
    if !MassiveIngestion.Limited(maxArticles) || maxArticles.value > 0 {
      ParsedFromIsPrefix([], files, maxArticles);
      assert [] + Flatten(files) == Flatten(files);
    }
    all := [];
    var i := 0;
    while i < |files|
      invariant 0 <= i <= |files|
      invariant ParsedFrom(all, files[i..], maxArticles) == ParsedFrom([], files, maxArticles)
      decreases |files| - i
    {
      assert files[i..][1..] == files[i + 1..];
      all := all + files[i];
      if MassiveIngestion.Limited(maxArticles) && |all| >= maxArticles.value {
        all := MassiveIngestion.PyTake(all, maxArticles.value);
        return;
      }
      i := i + 1;
    }
    assert files[i..] == [];
  }

  // ---------------------------------------------------------------------------
  // Article records
  // ---------------------------------------------------------------------------

  /** `CODE_MAPPING.get(code_id, code_id)`. */
  function CodeName(mapping: seq<(string, string)>, codeId: string): (r: string)
    ensures (forall k :: 0 <= k < |mapping| ==> mapping[k].0 != codeId) ==> r == codeId
    ensures r != codeId ==> exists k :: 0 <= k < |mapping| && mapping[k] == (codeId, r)
  {
    if mapping == [] then codeId
    else if mapping[0].0 == codeId then mapping[0].1
    else CodeName(mapping[1..], codeId)
  }

  /** The code as `_create_article` reads it (only its id and name are used). */
  function InfoFor(codeId: string): MassiveIngestion.CodeInfo {
    MassiveIngestion.CodeInfo(codeId, codeId, CodeName(CodeMapping, codeId), 0, 0)
  }

  /** The record of a parsed article: a missing id becomes `<code id>_<num>`, with
      `UNKNOWN` for a missing number. */
  function LegiRecord(codeId: string, art: LegiArticle): MassiveIngestion.Article {
    MassiveIngestion.CreateArticle(
      InfoFor(codeId), art.id.GetOr(codeId + "_" + art.num.GetOr("UNKNOWN")),
      art.num.GetOr(""), art.content.GetOr(""), art.breadcrumb.GetOr(""),
      art.dateDebut.GetOr(MassiveIngestion.DefaultDateDebut), art.dateFin,
      art.etat.GetOr(MassiveIngestion.DefaultEtat), LegiSource)
  }

  function LegiRecords(codeId: string, arts: seq<LegiArticle>): (r: seq<MassiveIngestion.Article>)
    decreases |arts|
    ensures |r| == |arts|
  {
    if arts == [] then []
    else LegiRecords(codeId, arts[..|arts| - 1]) + [LegiRecord(codeId, arts[|arts| - 1])]
  }

  /** The record of each parsed article, built one by one. */
  method BuildRecords(codeId: string, all: seq<LegiArticle>) returns (articles: seq<MassiveIngestion.Article>)
    ensures articles == LegiRecords(codeId, all)
  {
    articles := [];
    for i := 0 to |all|
      invariant articles == LegiRecords(codeId, all[..i])
    {
      assert all[..i + 1][..i] == all[..i];
      articles := articles + [LegiRecord(codeId, all[i])];
    }
    assert all[..|all|] == all;
  }

  /** One record per parsed article, in order. */
  lemma {:induction false} LegiRecordsEach(codeId: string, arts: seq<LegiArticle>)
    decreases |arts|
    ensures forall i :: 0 <= i < |arts| ==> LegiRecords(codeId, arts)[i] == LegiRecord(codeId, arts[i])
  {
    if arts != [] {
      LegiRecordsEach(codeId, arts[..|arts| - 1]);
    }
  }

  /** The first directory of `dirs` named `codeId`. */
  function FirstNamed(dirs: seq<Path>, codeId: string): (r: Option<Path>)
    ensures r.Some? ==> r.value in dirs && Name(r.value) == codeId
    ensures r.None? <==> forall p :: p in dirs ==> Name(p) != codeId
  {
    if dirs == [] then None
    else if Name(dirs[0]) == codeId then Some(dirs[0])
    else FirstNamed(dirs[1..], codeId)
  }

  /** The articles of a code once its directory is known: none without a directory or
      without XML files, else the parsed articles cut to the limit, as records. */
  function ArticlesOf(codeId: string, codeDir: Option<Path>, a: Archive, maxArticles: Option<int>): seq<MassiveIngestion.Article>
  {
    if codeDir.None? then []
    else
      var files := if codeDir.value in a.xmlFiles then a.xmlFiles[codeDir.value] else [];
      if files == [] then [] else LegiRecords(codeId, ParsedFrom([], files, maxArticles))
  }

  /** `main`'s lookup of `--code`: the first code whose lower-cased name contains the
      lower-cased argument. */
  function FindCodeByName(mapping: seq<(string, string)>, arg: string): (r: Option<string>)
    ensures r.Some? ==> exists k :: (0 <= k < |mapping| && mapping[k].0 == r.value
      && Contains(Lower(mapping[k].1), Lower(arg))
      && forall j :: 0 <= j < k ==> !Contains(Lower(mapping[j].1), Lower(arg)))
    ensures r.None? <==> forall k :: 0 <= k < |mapping| ==> !Contains(Lower(mapping[k].1), Lower(arg))
  {
    if mapping == [] then None
    else if Contains(Lower(mapping[0].1), Lower(arg)) then Some(mapping[0].0)
    else
      var r := FindCodeByName(mapping[1..], arg);
      assert forall k :: 1 <= k < |mapping| ==> mapping[k] == mapping[1..][k - 1];
      r
  }

  /** The ingester: the search results cached per archive root (`_CODE_DIRS_CACHE`). */
  class LegiIngester {
    var cache: map<Path, seq<Path>>

    constructor()
      ensures cache == map[]
    {
      cache := map[];
    }

    /** The code directories of the archive: searched once per root, then served from
        the cache. */
    method CodeDirs(root: Path, a: Archive) returns (dirs: seq<Path>)
      modifies this
      ensures root in old(cache) ==> dirs == old(cache)[root] && cache == old(cache)
      ensures root !in old(cache) ==> dirs == CodeDirectories(root, a) && cache == old(cache)[root := dirs]
      ensures root in cache && cache[root] == dirs
    {
      if root !in cache {
        var found := FindCodeDirectories(root, a);
        cache := cache[root := found];
      }
      dirs := cache[root];
    }

    /**
     * `ingest_code_from_legi`: the code's directory is its direct path when that exists,
     * otherwise the first searched directory named like the code; its files are parsed
     * up to the limit and each article becomes a record. The cache is consulted only when
     * the direct path is missing.
     */
    method IngestCode(codeId: string, root: Path, a: Archive, maxArticles: Option<int>)
      returns (articles: seq<MassiveIngestion.Article>)
      modifies this
      ensures HasDirectPath(codeId) && DirectPath(root, codeId) in a.dirs ==>
        cache == old(cache) && articles == ArticlesOf(codeId, Some(DirectPath(root, codeId)), a, maxArticles)
      ensures !(HasDirectPath(codeId) && DirectPath(root, codeId) in a.dirs) ==>
        var dirs := if root in old(cache) then old(cache)[root] else CodeDirectories(root, a);
        && cache == old(cache)[root := dirs]
        && articles == ArticlesOf(codeId, FirstNamed(dirs, codeId), a, maxArticles)
      ensures MassiveIngestion.Limited(maxArticles) && maxArticles.value > 0 ==>
        |articles| <= maxArticles.value
    {
      var direct := BuildDirectPath(root, codeId);
      var codeDir: Option<Path> := None;
      if direct.Some? && direct.value in a.dirs {
        codeDir := direct;
      } else {
        var dirs := CodeDirs(root, a);
        var k := 0;
        while k < |dirs|
          invariant 0 <= k <= |dirs|
          invariant FirstNamed(dirs, codeId) == FirstNamed(dirs[k..], codeId)
          decreases |dirs| - k
        {
          assert dirs[k..][1..] == dirs[k + 1..];
          if Name(dirs[k]) == codeId {
            codeDir := Some(dirs[k]);
            break;
          }
          k := k + 1;
        }
        if k == |dirs| {
          assert dirs[k..] == [];
        }
      }
      articles := LimitedArticles(codeId, codeDir, a, maxArticles);
    }

    /** The part of `ingest_code_from_legi` after the directory is known. */
    method LimitedArticles(codeId: string, codeDir: Option<Path>, a: Archive, maxArticles: Option<int>)
      returns (articles: seq<MassiveIngestion.Article>)
      ensures articles == ArticlesOf(codeId, codeDir, a, maxArticles)
      ensures MassiveIngestion.Limited(maxArticles) && maxArticles.value > 0 ==>
        |articles| <= maxArticles.value
    {
      if codeDir.None? {
        return [];
      }
      var files := if codeDir.value in a.xmlFiles then a.xmlFiles[codeDir.value] else [];
      if files == [] {
        return [];
      }
      var all := ParseArticles(files, maxArticles);
      articles := BuildRecords(codeId, all);
    }

    /**
     * `main` after its arguments are parsed: exit code 1 when the root is missing, when
     * `--code` matches no code name, when `--all` finds no code directory, or when neither
     * option is given; otherwise each selected code is ingested in turn, counting the codes
     * that gave articles, the codes that gave none and the total of articles, and the exit
     * code is 0.
     */
    method RunCommand(code: string, all: bool, maxArticles: Option<int>, root: Path, a: Archive)
      returns (exitCode: int, succeeded: nat, failed: nat, totalArticles: nat)
      modifies this
      ensures root !in a.dirs ==> exitCode == 1
      ensures root in a.dirs && code != "" ==>
        (exitCode == 1 <==> FindCodeByName(CodeMapping, code).None?)
      ensures root in a.dirs && code == "" && all ==>
        (exitCode == 1 <==> CodeDirectories(root, a) == [])
      ensures root in a.dirs && code == "" && !all ==> exitCode == 1
      ensures exitCode == 0 || exitCode == 1
      ensures exitCode == 0 && code != "" ==> succeeded + failed == 1
      ensures exitCode == 0 && code == "" ==> succeeded + failed == |CodeDirectories(root, a)|
      ensures exitCode == 1 ==> succeeded == 0 && failed == 0 && totalArticles == 0
    {
      succeeded, failed, totalArticles := 0, 0, 0;
      if root !in a.dirs {
        return 1, 0, 0, 0;
      }
      var codes: seq<string>;
      if code != "" {
        var found := FindCodeByName(CodeMapping, code);
        if found.None? {
          return 1, 0, 0, 0;
        }
        codes := [found.value];
      } else if all {
        var dirs := FindCodeDirectories(root, a);
        if dirs == [] {
          return 1, 0, 0, 0;
        }
        codes := seq(|dirs|, i requires 0 <= i < |dirs| => Name(dirs[i]));
      } else {
        return 1, 0, 0, 0;
      }
      for i := 0 to |codes|
        invariant succeeded + failed == i
      {
        var articles := IngestCode(codes[i], root, a, maxArticles);
        if articles != [] {
          totalArticles := totalArticles + |articles|;
          succeeded := succeeded + 1;
        } else {
          failed := failed + 1;
        }
      }
      exitCode := 0;
    }
  }
}
