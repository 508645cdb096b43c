/**
 * The PDF style analyser's deterministic part (rag-juridique/utils/pdf_style_analyzer.py):
 * colour integers rendered as `#rrggbb`, the page-format guess from the page size, the
 * collection of fonts, font sizes and colours from the text spans of the first page, the
 * lists kept from them, and the basic template used when no language model is available.
 *
 * The PDF reader is outside the model: the first page arrives as its blocks of lines of
 * spans, and the text of the header, body and footer zones arrives as strings.
 */
module PdfStyle {
  import opened Strings

  // ---------------------------------------------------------------------------
  // Colours
  // ---------------------------------------------------------------------------

  predicate IsHexDigit(c: char) {
    '0' <= c <= '9' || 'a' <= c <= 'f'
  }

  function HexValue(c: char): int
    requires IsHexDigit(c)
  {
    if c <= '9' then c as int - '0' as int else c as int - 'a' as int + 10
  }

  function HexDigit(d: int): (c: char)
    requires 0 <= d < 16
    ensures IsHexDigit(c) && HexValue(c) == d
  {
    if d < 10 then ('0' as int + d) as char else ('a' as int + d - 10) as char
  }

  /** Python's `f"{n:02x}"` for a byte. */
  function HexByte(n: int): (r: string)
    requires 0 <= n < 256
    ensures |r| == 2 && IsHexDigit(r[0]) && IsHexDigit(r[1])
    ensures 16 * HexValue(r[0]) + HexValue(r[1]) == n
  {
    [HexDigit(n / 16), HexDigit(n % 16)]
  }

  /** The byte written as two hex digits at `s[i..i + 2]`. */
  function ByteAt(s: string, i: nat): int
    requires i + 1 < |s| && IsHexDigit(s[i]) && IsHexDigit(s[i + 1])
  {
    16 * HexValue(s[i]) + HexValue(s[i + 1])
  }

  /** `(c >> 16) & 0xFF`, `(c >> 8) & 0xFF` and `c & 0xFF`: floor division by a power of
      two, then the non-negative remainder modulo 256, as Python computes them. */
  function Red(color: int): int { (color / 0x1_0000) % 0x100 }
  function Green(color: int): int { (color / 0x100) % 0x100 }
  function Blue(color: int): int { color % 0x100 }

  /** `#` followed by six lowercase hex digits: red from bits 16-23, green from bits 8-15,
      blue from bits 0-7. */
  function ColorToHex(color: int): (r: string)
    ensures |r| == 7 && r[0] == '#'
    ensures forall i :: 1 <= i < 7 ==> IsHexDigit(r[i])
    ensures ByteAt(r, 1) == Red(color) && ByteAt(r, 3) == Green(color) && ByteAt(r, 5) == Blue(color)
  {
    "#" + HexByte(Red(color)) + HexByte(Green(color)) + HexByte(Blue(color))
  }

  /** For a 24-bit colour the three bytes read back from the hex string give the colour. */
  lemma ColorToHexRoundTrip(color: int)
    requires 0 <= color < 0x100_0000
    ensures var r := ColorToHex(color);
      ByteAt(r, 1) * 0x1_0000 + ByteAt(r, 3) * 0x100 + ByteAt(r, 5) == color
  {
    var hi := color / 0x1_0000;
    var mid := color % 0x1_0000;
    assert hi < 0x100;
    assert color / 0x100 == hi * 0x100 + mid / 0x100;
    assert Green(color) == mid / 0x100;
    assert Blue(color) == mid % 0x100;
  }

  // ---------------------------------------------------------------------------
  // Page format
  // ---------------------------------------------------------------------------

  function Abs(x: real): real {
    if x < 0.0 then -x else x
  }

  /** Within 10 points of A4 (595 x 842). */
  predicate NearA4(width: real, height: real) {
    Abs(width - 595.0) < 10.0 && Abs(height - 842.0) < 10.0
  }

  /** Within 10 points of US Letter (612 x 792). */
  predicate NearLetter(width: real, height: real) {
    Abs(width - 612.0) < 10.0 && Abs(height - 792.0) < 10.0
  }

  /** "A4", "Letter" or "Custom". The two sizes never both match (their heights are 50
      points apart), so the order of the tests does not matter. */
  function DetectPageFormat(width: real, height: real): (r: string)
    ensures r == "A4" <==> NearA4(width, height)
    ensures r == "Letter" <==> NearLetter(width, height)
    ensures r == "Custom" <==> !NearA4(width, height) && !NearLetter(width, height)
  {
    if NearA4(width, height) then "A4"
    else if NearLetter(width, height) then "Letter"
    else "Custom"
  }

  // ---------------------------------------------------------------------------
  // Fonts, sizes and colours of the first page
  // ---------------------------------------------------------------------------

  /** A run of text with one font, size and colour (an absent attribute is "" or 0). */
  datatype Span = Span(font: string, size: real, color: int)

  /** A block of the page; kind 0 is a text block. */
  datatype Block = Block(kind: int, lines: seq<seq<Span>>)

  /** What each span contributes: a font when it has one, a size when it is not 0, a colour
      when it is not 0. */
  function SpanFonts(s: Span): set<string> { if s.font != "" then {s.font} else {} }
  function SpanSizes(s: Span): set<real> { if s.size != 0.0 then {s.size} else {} }
  function SpanColors(s: Span): set<int> { if s.color != 0 then {s.color} else {} }

  function GatherSpans<T>(spans: seq<Span>, f: Span -> set<T>): set<T>
    decreases |spans|
  {
    if spans == [] then {} else GatherSpans(spans[..|spans| - 1], f) + f(spans[|spans| - 1])
  }

  function GatherLines<T>(lines: seq<seq<Span>>, f: Span -> set<T>): set<T>
    decreases |lines|
  {
    if lines == [] then {} else GatherLines(lines[..|lines| - 1], f) + GatherSpans(lines[|lines| - 1], f)
  }

  /** What the spans of the text blocks contribute; other blocks are skipped. */
  function GatherBlocks<T>(blocks: seq<Block>, f: Span -> set<T>): set<T>
    decreases |blocks|
  {
    if blocks == [] then {}
    else
      var last := blocks[|blocks| - 1];
      GatherBlocks(blocks[..|blocks| - 1], f) + (if last.kind == 0 then GatherLines(last.lines, f) else {})
  }

  lemma {:induction false} GatherSpansMembers<T>(spans: seq<Span>, f: Span -> set<T>, x: T)
    decreases |spans|
    ensures x in GatherSpans(spans, f) <==> exists s :: s in spans && x in f(s)
  {
    if spans != [] {
      var init := spans[..|spans| - 1];
      GatherSpansMembers(init, f, x);
      assert spans == init + [spans[|spans| - 1]];
    }
  }

  lemma {:induction false} GatherLinesMembers<T>(lines: seq<seq<Span>>, f: Span -> set<T>, x: T)
    decreases |lines|
    ensures x in GatherLines(lines, f) <==> exists l, s :: l in lines && s in l && x in f(s)
  {
    if lines != [] {
      var init := lines[..|lines| - 1];
      var last := lines[|lines| - 1];
      GatherLinesMembers(init, f, x);
      GatherSpansMembers(last, f, x);
      assert lines == init + [last];
    }
  }

  /** `x` is collected exactly when some span of some line of some text block gives it. */
  lemma {:induction false} GatherBlocksMembers<T>(blocks: seq<Block>, f: Span -> set<T>, x: T)
    decreases |blocks|
    ensures x in GatherBlocks(blocks, f) <==>
      exists b, l, s :: b in blocks && b.kind == 0 && l in b.lines && s in l && x in f(s)
  {
    if blocks != [] {
      var init := blocks[..|blocks| - 1];
      var last := blocks[|blocks| - 1];
      GatherBlocksMembers(init, f, x);
      GatherLinesMembers(last.lines, f, x);
      assert blocks == init + [last];
    }
  }

  /** The font names and sizes of the text spans, as the first pass over the blocks
      collects them. */
  method CollectFontsAndSizes(blocks: seq<Block>) returns (fonts: set<string>, sizes: set<real>)
    ensures fonts == GatherBlocks(blocks, SpanFonts)
    ensures sizes == GatherBlocks(blocks, SpanSizes)
  {
    fonts, sizes := {}, {};
    var i := 0;
    while i < |blocks|
      invariant 0 <= i <= |blocks|
      invariant fonts == GatherBlocks(blocks[..i], SpanFonts)
      invariant sizes == GatherBlocks(blocks[..i], SpanSizes)
    {
      var block := blocks[i];
      if block.kind == 0 {
        fonts, sizes := AddBlockFontsAndSizes(fonts, sizes, block.lines);
      }
      assert blocks[..i + 1][..i] == blocks[..i];
      i := i + 1;
    }
    assert blocks[..i] == blocks;
  }

  /** The lines loop of the first pass, over one text block. */
  method AddBlockFontsAndSizes(fonts0: set<string>, sizes0: set<real>, lines: seq<seq<Span>>)
    returns (fonts: set<string>, sizes: set<real>)
    ensures fonts == fonts0 + GatherLines(lines, SpanFonts)
    ensures sizes == sizes0 + GatherLines(lines, SpanSizes)
  {
    fonts, sizes := fonts0, sizes0;
    var j := 0;
    while j < |lines|
      invariant 0 <= j <= |lines|
      invariant fonts == fonts0 + GatherLines(lines[..j], SpanFonts)
      invariant sizes == sizes0 + GatherLines(lines[..j], SpanSizes)
    {
      fonts, sizes := AddLineFontsAndSizes(fonts, sizes, lines[j]);
      assert lines[..j + 1][..j] == lines[..j];
      j := j + 1;
    }
    assert lines[..j] == lines;
  }

  /** The spans loop of the first pass, over one line. */
  method AddLineFontsAndSizes(fonts0: set<string>, sizes0: set<real>, line: seq<Span>)
    returns (fonts: set<string>, sizes: set<real>)
    ensures fonts == fonts0 + GatherSpans(line, SpanFonts)
    ensures sizes == sizes0 + GatherSpans(line, SpanSizes)
  {
    fonts, sizes := fonts0, sizes0;
    var k := 0;
    while k < |line|
      invariant 0 <= k <= |line|
      invariant fonts == fonts0 + GatherSpans(line[..k], SpanFonts)
      invariant sizes == sizes0 + GatherSpans(line[..k], SpanSizes)
    {
      var span := line[k];
      if span.font != "" {
        fonts := fonts + {span.font};
      }
      if span.size != 0.0 {
        sizes := sizes + {span.size};
      }
      assert line[..k + 1][..k] == line[..k];
      k := k + 1;
    }
    assert line[..k] == line;
  }

  /** The colours of the text spans, as the second pass over the blocks collects them. */
  method CollectColors(blocks: seq<Block>) returns (colors: set<int>)
    ensures colors == GatherBlocks(blocks, SpanColors)
  {
    colors := {};
    var i := 0;
    while i < |blocks|
      invariant 0 <= i <= |blocks|
      invariant colors == GatherBlocks(blocks[..i], SpanColors)
    {
      var block := blocks[i];
      if block.kind == 0 {
        colors := AddBlockColors(colors, block.lines);
      }
      assert blocks[..i + 1][..i] == blocks[..i];
      i := i + 1;
    }
    assert blocks[..i] == blocks;
  }

  /** The lines loop of the second pass, over one text block. */
  method AddBlockColors(colors0: set<int>, lines: seq<seq<Span>>) returns (colors: set<int>)
    ensures colors == colors0 + GatherLines(lines, SpanColors)
  {
    colors := colors0;
    var j := 0;
    while j < |lines|
      invariant 0 <= j <= |lines|
      invariant colors == colors0 + GatherLines(lines[..j], SpanColors)
    {
      colors := AddLineColors(colors, lines[j]);
      assert lines[..j + 1][..j] == lines[..j];
      j := j + 1;
    }
    assert lines[..j] == lines;
  }

  /** The spans loop of the second pass, over one line. */
  method AddLineColors(colors0: set<int>, line: seq<Span>) returns (colors: set<int>)
    ensures colors == colors0 + GatherSpans(line, SpanColors)
  {
    colors := colors0;
    var k := 0;
    while k < |line|
      invariant 0 <= k <= |line|
      invariant colors == colors0 + GatherSpans(line[..k], SpanColors)
    {
      if line[k].color != 0 {
        colors := colors + {line[k].color};
      }
      assert line[..k + 1][..k] == line[..k];
      k := k + 1;
    }
    assert line[..k] == line;
  }

  // ---------------------------------------------------------------------------
  // The lists kept from the collected sets
  // ---------------------------------------------------------------------------

  predicate Distinct<T(==)>(s: seq<T>) {
    forall i, j :: 0 <= i < j < |s| ==> s[i] != s[j]
  }

  /** Python's `list(a_set)`: every element once, in an order the model leaves open. */
  method ListOf<T>(s: set<T>) returns (r: seq<T>)
    ensures |r| == |s| && Distinct(r)
    ensures forall x :: x in r <==> x in s
  {
    r := [];
    var rest := s;
    while rest != {}
      invariant rest <= s
      invariant |r| + |rest| == |s|
      invariant Distinct(r)
      invariant forall x :: x in r <==> x in s && x !in rest
      decreases |rest|
    {
      var x :| x in rest;
      r := r + [x];
      rest := rest - {x};
    }
  }

  predicate SortedDescending(s: seq<real>) {
    forall i, j :: 0 <= i < j < |s| ==> s[i] >= s[j]
  }

  function InsertDescending(s: seq<real>, x: real): (r: seq<real>)
    requires SortedDescending(s)
    ensures SortedDescending(r)
    ensures multiset(r) == multiset(s) + multiset{x}
    ensures r[0] == x || (s != [] && r[0] == s[0])
  {
    if s == [] || x >= s[0] then
      ConsDescending(x, s);
      [x] + s
    else
      var t := InsertDescending(s[1..], x);
      assert [s[0]] + s[1..] == s;
      assert s[1..] != [] ==> s[1..][0] == s[1] <= s[0];
      ConsDescending(s[0], t);
      [s[0]] + t
  }

  /** A value no smaller than the head of a descending list can go in front of it. */
  lemma ConsDescending(a: real, t: seq<real>)
    requires SortedDescending(t) && (t == [] || a >= t[0])
    ensures SortedDescending([a] + t)
  {
    var r := [a] + t;
    forall i, j | 0 <= i < j < |r| ensures r[i] >= r[j] {
      if i == 0 {
        assert r[j] == t[j - 1] <= t[0];
      } else {
        assert r[i] == t[i - 1] && r[j] == t[j - 1];
      }
    }
  }

  /** Python's `sorted(values, reverse=True)`. */
  function SortDescending(s: seq<real>): (r: seq<real>)
    ensures SortedDescending(r)
    ensures multiset(r) == multiset(s)
  {
    if s == [] then []
    else
      assert s == [s[0]] + s[1..];
      InsertDescending(SortDescending(s[1..]), s[0])
  }

  /** Keeping the first `n` of a descending sort keeps the largest values: a value left out
      is no larger than any value kept. */
  lemma TopValues(s: seq<real>, n: nat, x: real)
    requires x in s && x !in Take(SortDescending(s), n)
    ensures forall y :: y in Take(SortDescending(s), n) ==> x <= y
  {
    var sorted := SortDescending(s);
    assert x in multiset(s);
    assert x in sorted;
    var i :| 0 <= i < |sorted| && sorted[i] == x;
    var top := Take(sorted, n);
    assert i >= |top|;
    forall y | y in top ensures x <= y {
      var j :| 0 <= j < |top| && top[j] == y;
      assert sorted[j] == y;
    }
  }

  function Min(a: int, b: int): int {
    if a < b then a else b
  }

  datatype PageDimensions = PageDimensions(width: real, height: real, format: string)

  /** The technical summary of the first page. */
  datatype TechnicalData = TechnicalData(
    page: PageDimensions,
    fonts: seq<string>,
    fontSizes: seq<real>,
    colors: seq<string>,
    totalPages: int)

  function ColorsToHex(cs: seq<int>): (r: seq<string>)
    ensures |r| == |cs| && forall i :: 0 <= i < |cs| ==> r[i] == ColorToHex(cs[i])
  {
    seq(|cs|, i requires 0 <= i < |cs| => ColorToHex(cs[i]))
  }

  /**
   * The technical data of the first page: its size and format, five of its fonts, its five
   * largest font sizes in decreasing order, and five of its colours as hex strings. Which
   * five fonts and colours are kept follows the set's iteration order, left open here.
   */
  method ExtractTechnicalData(width: real, height: real, blocks: seq<Block>, totalPages: int)
    returns (data: TechnicalData)
    ensures data.page == PageDimensions(width, height, DetectPageFormat(width, height))
    ensures data.totalPages == totalPages
    ensures var fonts := GatherBlocks(blocks, SpanFonts);
      |data.fonts| == Min(5, |fonts|) && Distinct(data.fonts)
      && forall f :: f in data.fonts ==> f in fonts
    ensures var sizes := GatherBlocks(blocks, SpanSizes);
      |data.fontSizes| == Min(5, |sizes|) && SortedDescending(data.fontSizes)
      && (forall x :: x in data.fontSizes ==> x in sizes)
      && (forall x, y :: x in sizes && x !in data.fontSizes && y in data.fontSizes ==> x <= y)
    ensures var colors := GatherBlocks(blocks, SpanColors);
      |data.colors| == Min(5, |colors|)
      && HexOfSome(data.colors, colors)
  {
    var fonts, sizes := CollectFontsAndSizes(blocks);
    var colors := CollectColors(blocks);
    var fontList := ListOf(fonts);
    var sizeList := ListOf(sizes);
    var colorList := ListOf(colors);
    var topSizes := Take(SortDescending(sizeList), 5);
    TopSizes(sizeList);
    var hex := ColorsToHex(Take(colorList, 5));
    HexOfListed(colorList, colors);
    data := TechnicalData(PageDimensions(width, height, DetectPageFormat(width, height)),
                          Take(fontList, 5), topSizes, hex, totalPages);
  }

  /** The five largest values of a list, in decreasing order. */
  lemma TopSizes(list: seq<real>)
    ensures var top := Take(SortDescending(list), 5);
      && |top| == Min(5, |list|) && SortedDescending(top)
      && (forall x :: x in top ==> x in list)
      && (forall x, y :: x in list && x !in top && y in top ==> x <= y)
  {
    var sorted := SortDescending(list);
    assert |sorted| == |multiset(sorted)| == |multiset(list)| == |list|;
    var top := Take(sorted, 5);
    forall x | x in top ensures x in list {
      assert x in sorted;
      assert x in multiset(list);
    }
    forall x, y | x in list && x !in top && y in top ensures x <= y {
      TopValues(list, 5, x);
    }
  }

  /** `h` renders some colour of `colors`. */
  predicate HexOf(h: string, colors: set<int>) {
    exists c :: c in colors && h == ColorToHex(c)
  }

  /** Every string of `hex` renders some colour of `colors`. */
  predicate HexOfSome(hex: seq<string>, colors: set<int>) {
    forall i :: 0 <= i < |hex| ==> HexOf(hex[i], colors)
  }

  /** Each hex string kept stands for a colour of the set. */
  lemma HexOfListed(colorList: seq<int>, colors: set<int>)
    requires forall c :: c in colorList <==> c in colors
    ensures HexOfSome(ColorsToHex(Take(colorList, 5)), colors)
  {
    var kept := Take(colorList, 5);
    var hex := ColorsToHex(kept);
    forall i | 0 <= i < |hex| ensures HexOf(hex[i], colors) {
      var c := kept[i];
      assert c in colorList;
      assert c in colors && hex[i] == ColorToHex(c);
    }
  }

  // ---------------------------------------------------------------------------
  // Zone text and the basic template
  // ---------------------------------------------------------------------------

  datatype StructuredText = StructuredText(header: string, bodyPreview: string, footer: string)

  /** The stripped header and footer text, and at most 500 characters of the stripped body. */
  function StructuredTextOf(headerZone: string, bodyZone: string, footerZone: string): (r: StructuredText)
    ensures r.header == Strip(headerZone) && r.footer == Strip(footerZone)
    ensures |r.bodyPreview| == Min(500, |Strip(bodyZone)|)
    ensures r.bodyPreview == Strip(bodyZone)[..|r.bodyPreview|]
  {
    StructuredText(Strip(headerZone), Take(Strip(bodyZone), 500), Strip(footerZone))
  }

  /** Python's `max(values)`. */
  function MaxOf(s: seq<real>): (m: real)
    requires s != []
    ensures m in s && forall x :: x in s ==> x <= m
  {
    if |s| == 1 then s[0]
    else
      var rest := MaxOf(s[1..]);
      assert forall x :: x in s ==> x == s[0] || x in s[1..];
      if s[0] >= rest then s[0] else rest
  }

  /** The template used without the language model. */
  datatype BasicTemplate = BasicTemplate(
    templateName: string,
    documentType: string,
    headerHasLogo: bool,
    headerText: string,
    headerFont: string,
    headerFontSize: int,
    headerColor: string,
    footerText: string,
    footerFontSize: int,
    footerColor: string,
    hasPageNumbers: bool,
    format: string,
    orientation: string,
    marginTop: int,
    marginBottom: int,
    marginLeft: int,
    marginRight: int,
    titleFont: string,
    titleSize: real,
    bodyFont: string,
    bodySize: int)

  const DefaultFont: string := "Arial"
  const DefaultTitleSize: real := 16.0
  const Margin: int := 72

  /**
   * The basic template: the first font or Arial for header, titles and body, the largest
   * font size or 16 for titles, the detected format, portrait, and 72-point margins.
   */
  function GenerateBasicTemplate(data: TechnicalData, text: StructuredText): (t: BasicTemplate)
    ensures var font := if data.fonts != [] then data.fonts[0] else DefaultFont;
      t.headerFont == font && t.titleFont == font && t.bodyFont == font
    ensures data.fontSizes == [] ==> t.titleSize == DefaultTitleSize
    ensures data.fontSizes != [] ==>
      t.titleSize in data.fontSizes && forall x :: x in data.fontSizes ==> x <= t.titleSize
    ensures t.marginTop == Margin && t.marginBottom == Margin
    ensures t.marginLeft == Margin && t.marginRight == Margin
    ensures t.format == data.page.format && t.orientation == "portrait"
    ensures t.headerText == text.header && t.footerText == text.footer
  {
    var font := if data.fonts != [] then data.fonts[0] else DefaultFont;
    BasicTemplate(
      "Template basique", "autre",
      false, text.header, font, 12, "#000000",
      text.footer, 9, "#666666", true,
      data.page.format, "portrait", Margin, Margin, Margin, Margin,
      font, if data.fontSizes != [] then MaxOf(data.fontSizes) else DefaultTitleSize, font, 11)
  }

  /** With font sizes sorted in decreasing order, the title size of the basic template is
      the first of them: the largest size found on the page. */
  lemma TitleSizeIsFirst(data: TechnicalData, text: StructuredText)
    requires data.fontSizes != [] && SortedDescending(data.fontSizes)
    ensures GenerateBasicTemplate(data, text).titleSize == data.fontSizes[0]
  {
    var m := GenerateBasicTemplate(data, text).titleSize;
    var i :| 0 <= i < |data.fontSizes| && data.fontSizes[i] == m;
    assert data.fontSizes[0] in data.fontSizes;
  }
}
