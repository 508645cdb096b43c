/**
 * The fixer of JSONL exports (rag-juridique/fix_missing_content.py): each file is
 * rewritten without the articles that have no content or no id, and the per-file
 * statistics are summed.
 *
 * Lines decode as in the validator (module JsonlValidation). A decoded value without
 * `.get`, or a `content` that is present but not a string (`null` included), raises an
 * error the line loop does not catch: the file's processing stops there, its statistics so far are returned and
 * nothing is written. Whether the output file is written is a result; its text is not
 * modelled.
 */
module JsonlFix {
  import opened Wrappers
  import opened Strings
  import opened JsonlValidation

  /** What happens to one line. */
  datatype FixClass = Skip | Keep | Remove | Abort

  /**
   * Blank lines are skipped; a decoding error removes the line; a value that is not an
   * object, or whose content is present but not a string (`null` included), aborts the
   * file; an empty or
   * blank content removes it, then a falsy id removes it; otherwise it is kept.
   */
  function FixClassOf(line: string, decode: string -> Decoded): (r: FixClass)
    ensures r == Skip <==> Strip(line) == ""
    ensures r == Keep <==>
      && Strip(line) != ""
      && decode(Strip(line)).Object?
      && decode(Strip(line)).content.Text?
      && Strip(decode(Strip(line)).content.s) != ""
      && Truthy(decode(Strip(line)).id)
  {
    var s := Strip(line);
    if s == "" then Skip
    else match decode(s)
      case DecodeError => Remove
      case NotObject => Abort
      case Object(id, content) =>
        if content.Null? || content.NonText? then Abort
        else if Strip(if content.Text? then content.s else "") == "" then Remove
        else if !Truthy(id) then Remove
        else Keep
  }

  /** The index of the first line that aborts the file, or the number of lines. */
  function FirstAbort(lines: seq<string>, decode: string -> Decoded): (r: nat)
    decreases |lines|
    ensures r <= |lines|
  {
    if lines == [] then 0
    else if FixClassOf(lines[0], decode) == Abort then 0
    else 1 + FirstAbort(lines[1..], decode)
  }

  /** No line before the first abort aborts, and the line there does. */
  lemma {:induction false} FirstAbortSpec(lines: seq<string>, decode: string -> Decoded)
    decreases |lines|
    ensures forall i :: 0 <= i < FirstAbort(lines, decode) ==> FixClassOf(lines[i], decode) != Abort
    ensures FirstAbort(lines, decode) < |lines| ==> FixClassOf(lines[FirstAbort(lines, decode)], decode) == Abort
  {
    if lines != [] && FixClassOf(lines[0], decode) != Abort {
      FirstAbortSpec(lines[1..], decode);
      assert forall i :: 1 <= i < |lines| ==> lines[i] == lines[1..][i - 1];
    }
  }

  /** The decoded objects of the kept lines, in order. */
  function KeptDocs(lines: seq<string>, decode: string -> Decoded): seq<Decoded>
    decreases |lines|
  {
    if lines == [] then []
    else
      var init := KeptDocs(lines[..|lines| - 1], decode);
      var last := lines[|lines| - 1];
      if FixClassOf(last, decode) == Keep then init + [decode(Strip(last))] else init
  }

  /** Every kept document is an object with a non-blank string content and a truthy id. */
  lemma {:induction false} KeptDocsValid(lines: seq<string>, decode: string -> Decoded)
    decreases |lines|
    ensures forall d :: d in KeptDocs(lines, decode) ==>
      d.Object? && d.content.Text? && Strip(d.content.s) != "" && Truthy(d.id)
  {
    if lines != [] {
      KeptDocsValid(lines[..|lines| - 1], decode);
    }
  }

  function CountFix(lines: seq<string>, decode: string -> Decoded, c: FixClass): (r: nat)
    decreases |lines|
    ensures r <= |lines|
  {
    if lines == [] then 0
    else CountFix(lines[..|lines| - 1], decode, c) + (if FixClassOf(lines[|lines| - 1], decode) == c then 1 else 0)
  }

  /** Exactly the kept lines give a document. */
  lemma {:induction false} KeptDocsCount(lines: seq<string>, decode: string -> Decoded)
    decreases |lines|
    ensures |KeptDocs(lines, decode)| == CountFix(lines, decode, Keep)
  {
    if lines != [] {
      KeptDocsCount(lines[..|lines| - 1], decode);
    }
  }

  /** Without an abort, every line is skipped, kept or removed. */
  lemma {:induction false} FixCountsAddUp(lines: seq<string>, decode: string -> Decoded)
    requires forall i :: 0 <= i < |lines| ==> FixClassOf(lines[i], decode) != Abort
    decreases |lines|
    ensures CountFix(lines, decode, Skip) + CountFix(lines, decode, Keep) + CountFix(lines, decode, Remove) == |lines|
  {
    if lines != [] {
      FixCountsAddUp(lines[..|lines| - 1], decode);
    }
  }

  datatype FixStats = FixStats(total: nat, kept: nat, removed: nat)

  /** The statistics of one file: the lines up to the first abort are counted, and the
      aborting line itself counts in the total only. */
  function FixStatsOf(file: Option<seq<string>>, decode: string -> Decoded): (r: FixStats)
    ensures file.None? ==> r == FixStats(0, 0, 0)
    ensures file.Some? && FirstAbort(file.value, decode) == |file.value| ==> r.total == r.kept + r.removed
    ensures file.Some? && FirstAbort(file.value, decode) < |file.value| ==> r.total == r.kept + r.removed + 1
  {
    match file
    case None => FixStats(0, 0, 0)
    case Some(lines) =>
      var a := FirstAbort(lines, decode);
      var done := lines[..a];
      FirstAbortSpec(lines, decode);
      FixCountsAddUp(done, decode);
      var counted := CountFix(done, decode, Keep) + CountFix(done, decode, Remove);
      FixStats(if a < |lines| then counted + 1 else counted, CountFix(done, decode, Keep), CountFix(done, decode, Remove))
  }

  /** The counters after one more line that does not abort. */
  lemma FixStep(lines: seq<string>, i: nat, decode: string -> Decoded)
    requires i < |lines|
    ensures var c := FixClassOf(lines[i], decode);
      && CountFix(lines[..i + 1], decode, Keep) == CountFix(lines[..i], decode, Keep) + (if c == Keep then 1 else 0)
      && CountFix(lines[..i + 1], decode, Remove) == CountFix(lines[..i], decode, Remove) + (if c == Remove then 1 else 0)
      && KeptDocs(lines[..i + 1], decode) ==
           KeptDocs(lines[..i], decode) + (if c == Keep then [decode(Strip(lines[i]))] else [])
  {
    assert lines[..i + 1][..i] == lines[..i];
  }

  /** An aborting line before which nothing aborts is the first one. */
  lemma AbortsAt(lines: seq<string>, i: nat, decode: string -> Decoded)
    requires i <= FirstAbort(lines, decode) && i < |lines|
    requires FixClassOf(lines[i], decode) == Abort
    ensures FirstAbort(lines, decode) == i
  {
    FirstAbortSpec(lines, decode);
  }

  /** A line that does not abort, with nothing aborting before it, lies before the first abort. */
  lemma NoAbortBefore(lines: seq<string>, i: nat, decode: string -> Decoded)
    requires i <= FirstAbort(lines, decode) && i < |lines|
    requires FixClassOf(lines[i], decode) != Abort
    ensures i < FirstAbort(lines, decode)
  {
    FirstAbortSpec(lines, decode);
  }

  /** The checks the line loop makes on one line, in the order it makes them. */
  method FixLine(line: string, decode: string -> Decoded) returns (c: FixClass)
    ensures c == FixClassOf(line, decode)
  {
    var s := Strip(line);
    if s == "" {
      return Skip;
    }
    match decode(s) {
      case DecodeError =>
        c := Remove;
      case NotObject =>
        c := Abort;
      case Object(id, content) =>
        if content.Null? || content.NonText? {
          c := Abort;
        } else if Strip(if content.Text? then content.s else "") == "" {
          c := Remove;
        } else if !Truthy(id) {
          c := Remove;
        } else {
          c := Keep;
        }
    }
  }

  /** Whether fixing `file` writes its output: it was read to the end and kept a document. */
  predicate WritesOutput(file: Option<seq<string>>, decode: string -> Decoded) {
    file.Some? && FirstAbort(file.value, decode) == |file.value| && FixStatsOf(file, decode).kept > 0
  }

  /** A line whose `content` is JSON `null` stops the file at or before it: `.strip()` on
      `None` fails outside the decoding handler, so nothing is written, whatever else the
      file holds. */
  lemma NullContentAbortsFile(lines: seq<string>, i: nat, decode: string -> Decoded)
    requires i < |lines| && Strip(lines[i]) != ""
    requires decode(Strip(lines[i])).Object? && decode(Strip(lines[i])).content == Null
    ensures FirstAbort(lines, decode) <= i
    ensures !WritesOutput(Some(lines), decode)
  {
    assert FixClassOf(lines[i], decode) == Abort;
    FirstAbortSpec(lines, decode);
  }

  /**
   * `fix_jsonl_file`: the kept documents, in order, and the statistics; the output is
   * written only when the whole file was read and at least one document was kept.
   */
  method FixFile(file: Option<seq<string>>, decode: string -> Decoded)
    returns (stats: FixStats, kept: seq<Decoded>, written: bool)
    ensures stats == FixStatsOf(file, decode)
    ensures file.Some? ==> kept == KeptDocs(file.value[..FirstAbort(file.value, decode)], decode)
    ensures stats.kept == |kept|
    ensures written == WritesOutput(file, decode)
  {
    stats, kept, written := FixStats(0, 0, 0), [], false;
    if file.None? {
      return;
    }
    var lines := file.value;
    ghost var a := FirstAbort(lines, decode);
    var total, keptCount, removed := 0, 0, 0;
    var i := 0;
    while i < |lines|
      invariant 0 <= i <= a
      invariant keptCount == CountFix(lines[..i], decode, Keep)
      invariant removed == CountFix(lines[..i], decode, Remove)
      invariant total == keptCount + removed
      invariant kept == KeptDocs(lines[..i], decode)
      decreases |lines| - i
    {
      FixStep(lines, i, decode);
      var c := FixLine(lines[i], decode);
      if c == Abort {
        AbortsAt(lines, i, decode);
        KeptDocsCount(lines[..i], decode);
        stats := FixStats(total + 1, keptCount, removed);
        return;
      }
      NoAbortBefore(lines, i, decode);
      if c == Keep {
        kept := kept + [decode(Strip(lines[i]))];
        keptCount := keptCount + 1;
        total := total + 1;
      } else if c == Remove {
        removed := removed + 1;
        total := total + 1;
      }
      i := i + 1;
    }
    assert i == a;
    KeptDocsCount(lines[..a], decode);
    stats := FixStats(total, keptCount, removed);
    written := kept != [];
  }

  function SumFix(files: seq<Option<seq<string>>>, decode: string -> Decoded): (r: FixStats)
    decreases |files|
  {
    if files == [] then FixStats(0, 0, 0)
    else
      var s := SumFix(files[..|files| - 1], decode);
      var f := FixStatsOf(files[|files| - 1], decode);
      FixStats(s.total + f.total, s.kept + f.kept, s.removed + f.removed)
  }

  /** When no file aborts, the summed total is the summed kept plus the summed removed. */
  lemma {:induction false} SumFixAddsUp(files: seq<Option<seq<string>>>, decode: string -> Decoded)
    requires forall k :: 0 <= k < |files| && files[k].Some? ==> FirstAbort(files[k].value, decode) == |files[k].value|
    decreases |files|
    ensures SumFix(files, decode).total == SumFix(files, decode).kept + SumFix(files, decode).removed
  {
    if files != [] {
      SumFixAddsUp(files[..|files| - 1], decode);
    }
  }

  /** The sums after one more file. */
  lemma SumFixStep(files: seq<Option<seq<string>>>, k: nat, decode: string -> Decoded)
    requires k < |files|
    ensures var s := SumFix(files[..k], decode);
      var f := FixStatsOf(files[k], decode);
      SumFix(files[..k + 1], decode) == FixStats(s.total + f.total, s.kept + f.kept, s.removed + f.removed)
  {
    assert files[..k + 1][..k] == files[..k];
  }

  /** Per file, whether its output is written. */
  function WrittenFlags(files: seq<Option<seq<string>>>, decode: string -> Decoded): (r: seq<bool>)
    decreases |files|
    ensures |r| == |files|
  {
    if files == [] then []
    else WrittenFlags(files[..|files| - 1], decode) + [WritesOutput(files[|files| - 1], decode)]
  }

  lemma {:induction false} WrittenFlagsSpec(files: seq<Option<seq<string>>>, decode: string -> Decoded)
    decreases |files|
    ensures forall k :: 0 <= k < |files| ==> WrittenFlags(files, decode)[k] == WritesOutput(files[k], decode)
  {
    if files != [] {
      var init := files[..|files| - 1];
      WrittenFlagsSpec(init, decode);
      assert forall k :: 0 <= k < |init| ==> init[k] == files[k];
    }
  }

  lemma WrittenFlagsStep(files: seq<Option<seq<string>>>, k: nat, decode: string -> Decoded)
    requires k < |files|
    ensures WrittenFlags(files[..k + 1], decode) == WrittenFlags(files[..k], decode) + [WritesOutput(files[k], decode)]
  {
    assert files[..k + 1][..k] == files[..k];
  }

  /** `main`: each file is fixed in turn and the statistics are summed; returns the totals
      and, per file, whether its output was written. */
  method FixAll(files: seq<Option<seq<string>>>, decode: string -> Decoded)
    returns (totals: FixStats, written: seq<bool>)
    ensures totals == SumFix(files, decode)
    ensures |written| == |files|
    ensures forall k :: 0 <= k < |files| ==> written[k] == WritesOutput(files[k], decode)
  {
    totals := FixStats(0, 0, 0);
    written := [];
    for k := 0 to |files|
      invariant totals == SumFix(files[..k], decode)
      invariant written == WrittenFlags(files[..k], decode)
    {
      SumFixStep(files, k, decode);
      WrittenFlagsStep(files, k, decode);
      var stats, kept, w := FixFile(files[k], decode);
      totals := FixStats(totals.total + stats.total, totals.kept + stats.kept, totals.removed + stats.removed);
      written := written + [w];
    }
    assert files[..|files|] == files;
    WrittenFlagsSpec(files, decode);
  }
}
