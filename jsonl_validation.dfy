/**
 * The validator of corrected JSONL exports (rag-juridique/validate_all_fixed_files.py):
 * each non-blank line of a file is classified, counted as valid or invalid, and the run
 * passes only when no file has an invalid line.
 *
 * A file is its lines, or `None` when it cannot be opened. The JSON decoder is a
 * parameter that says what a line decodes to: an error, a value that is not an object,
 * or an object, of which only the `id` and `content` fields matter here. Error messages
 * are not modelled.
 */
module JsonlValidation {
  import opened Wrappers
  import opened Strings

  /** A field of a decoded object: absent, JSON `null`, a string, or another JSON value
      with its truthiness and its `str()` text. */
  datatype Field = Missing | Null | Text(s: string) | NonText(truthy: bool, repr: string)

  /** What `json.loads` makes of a line. */
  datatype Decoded = DecodeError | NotObject | Object(id: Field, content: Field)

  /** Python truthiness of a field value. */
  predicate Truthy(f: Field) {
    match f
    case Missing => false
    case Null => false
    case Text(s) => s != ""
    case NonText(t, _) => t
  }

  /** `str(value)`. */
  function StrOf(f: Field): string {
    match f
    case Missing => "None"
    case Null => "None"
    case Text(s) => s
    case NonText(_, repr) => repr
  }

  /** How one line is counted. */
  datatype LineClass = Blank | Valid | MissingId | MissingContent | JsonError | OtherError

  /**
   * The classification of one line: blank lines are skipped; then a decoding error, a
   * value without `.get` (an other error), a falsy id, a falsy or blank content, and
   * otherwise a valid line. The id is checked before the content.
   */
  function Classify(line: string, decode: string -> Decoded): (r: LineClass)
    ensures r == Blank <==> Strip(line) == ""
    ensures r == Valid ==>
      && decode(Strip(line)).Object? && Truthy(decode(Strip(line)).id)
      && Strip(StrOf(decode(Strip(line)).content)) != ""
    ensures r == MissingContent ==> decode(Strip(line)).Object? && Truthy(decode(Strip(line)).id)
  {
    var s := Strip(line);
    if s == "" then Blank
    else match decode(s)
      case DecodeError => JsonError
      case NotObject => OtherError
      case Object(id, content) =>
        if !Truthy(id) then MissingId
        else if !Truthy(content) || Strip(StrOf(content)) == "" then MissingContent
        else Valid
  }

  /** A line missing both its id and its content counts only as missing its id. */
  lemma IdCheckedFirst(line: string, decode: string -> Decoded)
    requires Strip(line) != "" && decode(Strip(line)) == Object(Missing, Missing)
    ensures Classify(line, decode) == MissingId
  {
  }

  /** A whitespace-only content counts as missing, even when the id is present. */
  lemma BlankContentIsMissing(line: string, decode: string -> Decoded, id: string, content: string)
    requires Strip(line) != "" && decode(Strip(line)) == Object(Text(id), Text(content))
    requires id != "" && AllSpace(content)
    ensures Classify(line, decode) == MissingContent
  {
    assert Strip(content) == "";
  }

  predicate IsInvalid(c: LineClass) {
    c == MissingId || c == MissingContent || c == JsonError || c == OtherError
  }

  /** How many of `lines` are classified `c`. */
  function CountClass(lines: seq<string>, decode: string -> Decoded, c: LineClass): (r: nat)
    decreases |lines|
    ensures r <= |lines|
  {
    if lines == [] then 0
    else CountClass(lines[..|lines| - 1], decode, c) + (if Classify(lines[|lines| - 1], decode) == c then 1 else 0)
  }

  /** How many of `lines` are invalid. */
  function CountInvalid(lines: seq<string>, decode: string -> Decoded): nat
    decreases |lines|
  {
    if lines == [] then 0
    else CountInvalid(lines[..|lines| - 1], decode) + (if IsInvalid(Classify(lines[|lines| - 1], decode)) then 1 else 0)
  }

  /** How many of `lines` are not blank. */
  function CountCounted(lines: seq<string>, decode: string -> Decoded): nat
    decreases |lines|
  {
    if lines == [] then 0
    else CountCounted(lines[..|lines| - 1], decode) + (if Classify(lines[|lines| - 1], decode) != Blank then 1 else 0)
  }

  /** Every counted line is valid or invalid, every invalid line has exactly one reason,
      and every line is counted or blank. */
  lemma {:induction false} CountsAddUp(lines: seq<string>, decode: string -> Decoded)
    decreases |lines|
    ensures CountInvalid(lines, decode) == CountClass(lines, decode, MissingId)
      + CountClass(lines, decode, MissingContent) + CountClass(lines, decode, JsonError)
      + CountClass(lines, decode, OtherError)
    ensures CountCounted(lines, decode) == CountClass(lines, decode, Valid) + CountInvalid(lines, decode)
    ensures CountCounted(lines, decode) + CountClass(lines, decode, Blank) == |lines|
  {
    if lines != [] {
      CountsAddUp(lines[..|lines| - 1], decode);
    }
  }

  /** The statistics of one file. */
  datatype ValidationStats = ValidationStats(
    total: nat, valid: nat, invalid: nat,
    missingContent: nat, missingId: nat, jsonErrors: nat,
    readFailed: bool)

  /** The statistics `validate_file` reports for a file; an unreadable file has all
      counters at zero. */
  function Validation(file: Option<seq<string>>, decode: string -> Decoded): (r: ValidationStats)
    ensures r.total == r.valid + r.invalid
    ensures r.invalid >= r.missingId + r.missingContent + r.jsonErrors
    ensures r.readFailed <==> file.None?
    ensures file.Some? ==> r.total + CountClass(file.value, decode, Blank) == |file.value|
  {
    match file
    case None => ValidationStats(0, 0, 0, 0, 0, 0, true)
    case Some(lines) =>
      CountsAddUp(lines, decode);
      ValidationStats(CountCounted(lines, decode), CountClass(lines, decode, Valid),
                      CountInvalid(lines, decode), CountClass(lines, decode, MissingContent),
                      CountClass(lines, decode, MissingId), CountClass(lines, decode, JsonError), false)
  }

  /** The counts after one more line. */
  lemma CountsStep(lines: seq<string>, i: nat, decode: string -> Decoded)
    requires i < |lines|
    ensures var c := Classify(lines[i], decode);
      && CountCounted(lines[..i + 1], decode) == CountCounted(lines[..i], decode) + (if c != Blank then 1 else 0)
      && CountInvalid(lines[..i + 1], decode) == CountInvalid(lines[..i], decode) + (if IsInvalid(c) then 1 else 0)
      && CountClass(lines[..i + 1], decode, Valid) == CountClass(lines[..i], decode, Valid) + (if c == Valid then 1 else 0)
      && CountClass(lines[..i + 1], decode, MissingId) == CountClass(lines[..i], decode, MissingId) + (if c == MissingId then 1 else 0)
      && CountClass(lines[..i + 1], decode, MissingContent) == CountClass(lines[..i], decode, MissingContent) + (if c == MissingContent then 1 else 0)
      && CountClass(lines[..i + 1], decode, JsonError) == CountClass(lines[..i], decode, JsonError) + (if c == JsonError then 1 else 0)
  {
    assert lines[..i + 1][..i] == lines[..i];
  }

  /** `validate_file`, with its loop over the lines. */
  method ValidateFile(file: Option<seq<string>>, decode: string -> Decoded) returns (stats: ValidationStats)
    ensures stats == Validation(file, decode)
  {
    if file.None? {
      return ValidationStats(0, 0, 0, 0, 0, 0, true);
    }
    var lines := file.value;
    var total, valid, invalid, missingContent, missingId, jsonErrors := 0, 0, 0, 0, 0, 0;
    for i := 0 to |lines|
      invariant total == CountCounted(lines[..i], decode)
      invariant valid == CountClass(lines[..i], decode, Valid)
      invariant invalid == CountInvalid(lines[..i], decode)
      invariant missingContent == CountClass(lines[..i], decode, MissingContent)
      invariant missingId == CountClass(lines[..i], decode, MissingId)
      invariant jsonErrors == CountClass(lines[..i], decode, JsonError)
    {
      CountsStep(lines, i, decode);
      var line := Strip(lines[i]);
      if line == "" {
        continue;
      }
      total := total + 1;
      match decode(line)
      case DecodeError =>
        jsonErrors := jsonErrors + 1;
        invalid := invalid + 1;
      case NotObject =>
        invalid := invalid + 1;
      case Object(id, content) =>
        if !Truthy(id) {
          missingId := missingId + 1;
          invalid := invalid + 1;
        } else if !Truthy(content) || Strip(StrOf(content)) == "" {
          missingContent := missingContent + 1;
          invalid := invalid + 1;
        } else {
          valid := valid + 1;
        }
    }
    assert lines[..|lines|] == lines;
    stats := ValidationStats(total, valid, invalid, missingContent, missingId, jsonErrors, false);
  }

  /** A file is clean when it has no invalid line. */
  predicate Clean(file: Option<seq<string>>, decode: string -> Decoded) {
    Validation(file, decode).invalid == 0
  }

  /** The totals over the files. */
  function SumTotal(files: seq<Option<seq<string>>>, decode: string -> Decoded): nat
    decreases |files|
  {
    if files == [] then 0 else SumTotal(files[..|files| - 1], decode) + Validation(files[|files| - 1], decode).total
  }

  function SumValid(files: seq<Option<seq<string>>>, decode: string -> Decoded): nat
    decreases |files|
  {
    if files == [] then 0 else SumValid(files[..|files| - 1], decode) + Validation(files[|files| - 1], decode).valid
  }

  function SumInvalid(files: seq<Option<seq<string>>>, decode: string -> Decoded): nat
    decreases |files|
  {
    if files == [] then 0 else SumInvalid(files[..|files| - 1], decode) + Validation(files[|files| - 1], decode).invalid
  }

  /** The sums after one more file. */
  lemma SumsStep(files: seq<Option<seq<string>>>, k: nat, decode: string -> Decoded)
    requires k < |files|
    ensures var v := Validation(files[k], decode);
      && SumTotal(files[..k + 1], decode) == SumTotal(files[..k], decode) + v.total
      && SumValid(files[..k + 1], decode) == SumValid(files[..k], decode) + v.valid
      && SumInvalid(files[..k + 1], decode) == SumInvalid(files[..k], decode) + v.invalid
  {
    assert files[..k + 1][..k] == files[..k];
  }

  /** Over all files, the counted lines are the valid ones plus the invalid ones, and
      there is no invalid line exactly when every file is clean. */
  lemma SumsAgree(files: seq<Option<seq<string>>>, decode: string -> Decoded)
    ensures SumTotal(files, decode) == SumValid(files, decode) + SumInvalid(files, decode)
    ensures SumInvalid(files, decode) == 0 <==> forall k :: 0 <= k < |files| ==> Clean(files[k], decode)
  {
    SumsAddUp(files, decode);
    NoInvalidIffClean(files, decode);
  }

  lemma {:induction false} SumsAddUp(files: seq<Option<seq<string>>>, decode: string -> Decoded)
    decreases |files|
    ensures SumTotal(files, decode) == SumValid(files, decode) + SumInvalid(files, decode)
  {
    if files != [] {
      SumsAddUp(files[..|files| - 1], decode);
      var v := Validation(files[|files| - 1], decode);
      assert v.total == v.valid + v.invalid;
    }
  }

  lemma {:induction false} NoInvalidIffClean(files: seq<Option<seq<string>>>, decode: string -> Decoded)
    decreases |files|
    ensures SumInvalid(files, decode) == 0 <==> forall k :: 0 <= k < |files| ==> Clean(files[k], decode)
  {
    if files != [] {
      var init := files[..|files| - 1];
      NoInvalidIffClean(init, decode);
      assert forall k :: 0 <= k < |init| ==> init[k] == files[k];
    }
  }

  /**
   * `main`: exit code 1 when the `fixed` directory is missing or holds no file; otherwise
   * every file is validated, the totals are summed, and the exit code is 0 exactly when
   * every file is clean.
   */
  method ValidateAll(dirExists: bool, files: seq<Option<seq<string>>>, decode: string -> Decoded)
    returns (exitCode: int, totalArticles: nat, totalValid: nat, totalInvalid: nat, filesWithErrors: nat)
    ensures exitCode == 0 <==> dirExists && files != [] && forall k :: 0 <= k < |files| ==> Clean(files[k], decode)
    ensures exitCode == 0 || exitCode == 1
    ensures dirExists && files != [] ==>
      && totalArticles == SumTotal(files, decode)
      && totalValid == SumValid(files, decode)
      && totalInvalid == SumInvalid(files, decode)
      && totalArticles == totalValid + totalInvalid
      && filesWithErrors <= |files|
      && (filesWithErrors == 0 <==> exitCode == 0)
  {
    totalArticles, totalValid, totalInvalid, filesWithErrors := 0, 0, 0, 0;
    if !dirExists || files == [] {
      return 1, 0, 0, 0, 0;
    }
    var allValid := true;
    for k := 0 to |files|
      invariant totalArticles == SumTotal(files[..k], decode)
      invariant totalValid == SumValid(files[..k], decode)
      invariant totalInvalid == SumInvalid(files[..k], decode)
      invariant filesWithErrors <= k
      invariant allValid <==> filesWithErrors == 0
      invariant allValid <==> totalInvalid == 0
    {
      SumsStep(files, k, decode);
      var stats := ValidateFile(files[k], decode);
      totalArticles := totalArticles + stats.total;
      totalValid := totalValid + stats.valid;
      totalInvalid := totalInvalid + stats.invalid;
      if stats.invalid > 0 {
        allValid := false;
        filesWithErrors := filesWithErrors + 1;
      }
    }
    assert files[..|files|] == files;
    SumsAgree(files, decode);
    exitCode := if allValid then 0 else 1;
  }
}
