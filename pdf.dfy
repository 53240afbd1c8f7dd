/** The PDF builder `create_pdf_document`: an fpdf document, modelled as its
    current font and the list of text cells and line breaks put on the page,
    filled by the recursive `process_sections` walk. */
module Pdf {
  import opened JsonValue
  import opened Selection

  /** A Times font: bold or regular, and a size in points. */
  datatype Font = Font(bold: bool, size: int)

  /** What is put on the page, in order. Every cell is as wide as the page
      and 10 units high. */
  datatype Mark =
    | Line(text: string, font: Font)   // `pdf.cell(0, 10, text, ln=True)`
    | Block(text: string, font: Font)  // `pdf.multi_cell(0, 10, text)`, wrapped to the page width
    | Gap(height: int)                 // `pdf.ln(height)`

  /** `set_font("Times", "", 12)`: the font of the document and of values. */
  const BodyFont := Font(false, 12)
  /** `set_font("Times", "B", 16)`: the font of the title. */
  const TitleFont := Font(true, 16)
  /** `pdf.ln(5)` after the title and after each value. */
  const GapHeight := 5
  /** The level `process_sections` is started at. */
  const SectionsLevel := 1

  /** `set_font("Times", "B", 14 - level)`: the font of a heading. */
  function HeadingFont(level: int): Font {
    Font(true, 14 - level)
  }

  /** The marks `process_sections(fields, level)` puts on the page: for a
      mapping value its key's line and then the mapping's own marks one level
      deeper; for any other value its key's line, the value's text block and
      a gap. */
  function Body(fields: Fields, level: int, stringify: Json -> string): (r: seq<Mark>)
    ensures fields != [] ==> |r| > 0 && r[0] == Line(fields[0].0, HeadingFont(level))
    ensures fields == [] ==> r == []
    decreases fields
  {
    if fields == [] then []
    else
      var v := fields[0].1;
      assert v < fields[0];
      (if v.Obj? then [Line(fields[0].0, HeadingFont(level))] + Body(v.fields, level + 1, stringify)
       else [Line(fields[0].0, HeadingFont(level)), Block(Show(v, stringify), BodyFont), Gap(GapHeight)])
      + Body(fields[1..], level, stringify)
  }

  /** The current font after `ms` were put on a page whose font was `f`:
      every cell is written right after the font it uses was set, so a
      last line or block leaves its own font. */
  function FontAfter(ms: seq<Mark>, f: Font): (r: Font)
    ensures ms != [] && !ms[|ms| - 1].Gap? ==> r == ms[|ms| - 1].font
  {
    if ms == [] then f
    else
      match ms[|ms| - 1]
      case Gap(_) => FontAfter(ms[..|ms| - 1], f)
      case Line(_, g) => g
      case Block(_, g) => g
  }

  /** The current font is the font of the last line or block put on the
      page, or the starting font when there is none. */
  lemma {:induction false} FontAfterLast(ms: seq<Mark>, f: Font)
    ensures (forall i :: 0 <= i < |ms| ==> ms[i].Gap?) ==> FontAfter(ms, f) == f
    ensures forall j :: 0 <= j < |ms| && !ms[j].Gap? && (forall k :: j < k < |ms| ==> ms[k].Gap?)
              ==> FontAfter(ms, f) == ms[j].font
    decreases |ms|
  {
    if ms != [] {
      var n := |ms| - 1;
      var p := ms[..n];
      assert forall i :: 0 <= i < n ==> p[i] == ms[i];
      if ms[n].Gap? {
        FontAfterLast(p, f);
      }
    }
  }

  /** The text of the title line, present exactly when the top level has a
      `title` key: fpdf's `cell` is given the title value, modelled as its
      `str()`. */
  function Title(fields: Fields, stringify: Json -> string): (r: Option<string>)
    ensures r.Some? <==> exists i :: 0 <= i < |fields| && fields[i].0 == "title"
    ensures r.Some? ==> r.value == Show(Lookup(fields, "title").value, stringify)
  {
    var t := Lookup(fields, "title");
    if t.Some? then Some(Show(t.value, stringify)) else None
  }

  /** What `create_pdf_document(json_data, ...)` produces, up to writing it:
      the title line and a gap if there is a `title` key, then the walk of the
      selected mapping from level 1; or the error it raises. */
  function DocumentFor(data: Json, stringify: Json -> string): (r: Result<seq<Mark>>)
    ensures r.Ok? <==> data.Obj? && Walked(data.fields).Ok?
    ensures !data.Obj? ==> r == Err(NotAMapping)
    ensures data.Obj? && r.Err? ==> r == Err(SectionsNotAMapping)
  {
    match TopLevel(data)
    case Err(e) => Err(e)
    case Ok(fields) =>
      var title := match Title(fields, stringify)
        case Some(t) => [Line(t, TitleFont), Gap(GapHeight)]
        case None => [];
      match Walked(fields)
      case Err(e) => Err(e)
      case Ok(sections) => Ok(title + Body(sections, SectionsLevel, stringify))
  }

  /** An `FPDF()` document after `add_page()`: the current font and the marks
      on its pages. */
  class Document {
    var font: Font
    var marks: seq<Mark>

    /** `FPDF()`, `add_page()`, `set_font("Times", "", 12)` */
    constructor ()
      ensures font == BodyFont && marks == []
    {
      font := BodyFont;
      marks := [];
    }

    /** `set_font("Times", bold ? "B" : "", size)` */
    method SetFont(bold: bool, size: int)
      modifies this
      ensures font == Font(bold, size) && marks == old(marks)
    {
      font := Font(bold, size);
    }

    /** `cell(0, 10, text, ln=True)` */
    method Cell(text: string)
      modifies this
      ensures marks == old(marks) + [Line(text, font)] && font == old(font)
    {
      marks := marks + [Line(text, font)];
    }

    /** `multi_cell(0, 10, text)` */
    method MultiCell(text: string)
      modifies this
      ensures marks == old(marks) + [Block(text, font)] && font == old(font)
    {
      marks := marks + [Block(text, font)];
    }

    /** `ln(height)` */
    method Ln(height: int)
      modifies this
      ensures marks == old(marks) + [Gap(height)] && font == old(font)
    {
      marks := marks + [Gap(height)];
    }
  }

  /** The recursive `process_sections` closure. */
  method ProcessSections(pdf: Document, fields: Fields, level: int, stringify: Json -> string)
    modifies pdf
    decreases fields
    ensures pdf.marks == old(pdf.marks) + Body(fields, level, stringify)
    ensures pdf.font == FontAfter(Body(fields, level, stringify), old(pdf.font))
  {
    ghost var start, font0 := pdf.marks, pdf.font;
    var i := 0;
    while i < |fields|
      invariant 0 <= i <= |fields|
      invariant pdf.marks == start + Body(fields[..i], level, stringify)
      invariant pdf.font == FontAfter(Body(fields[..i], level, stringify), font0)
    {
      assert fields[i].1 < fields[i];
      assert fields[i] == (fields[i].0, fields[i].1);
      ProcessEntry(pdf, fields[i].0, fields[i].1, level, stringify);
      BodyStep(fields, i, level, stringify, font0);
      Regrouped(start, Body(fields[..i], level, stringify), Body([fields[i]], level, stringify));
      i := i + 1;
    }
    assert fields[..i] == fields;
  }

  /** One pass of the loop of `process_sections`, for the field `key: value`. */
  method ProcessEntry(pdf: Document, key: string, value: Json, level: int, stringify: Json -> string)
    modifies pdf
    decreases value
    ensures pdf.marks == old(pdf.marks) + Body([(key, value)], level, stringify)
    ensures pdf.font == FontAfter(Body([(key, value)], level, stringify), old(pdf.font))
  {
    ghost var start := pdf.marks;
    pdf.SetFont(true, 14 - level);
    pdf.Cell(key);
    assert pdf.font == HeadingFont(level) && pdf.marks == start + [Line(key, HeadingFont(level))];
    if value.Obj? {
      NestedEntry(key, value, level, stringify, old(pdf.font));
      ProcessSections(pdf, value.fields, level + 1, stringify);
      Regrouped(start, [Line(key, HeadingFont(level))], Body(value.fields, level + 1, stringify));
    } else {
      pdf.SetFont(false, 12);
      pdf.MultiCell(Show(value, stringify));
      pdf.Ln(GapHeight);
      LeafEntry(key, value, level, stringify, old(pdf.font));
      assert pdf.marks == start + [Line(key, HeadingFont(level)), Block(Show(value, stringify), BodyFont), Gap(GapHeight)];
    }
  }

  /** `create_pdf_document` up to `pdf.output`: the marks of the document, or
      the error it raises. */
  method Create(data: Json, stringify: Json -> string) returns (r: Result<seq<Mark>>)
    ensures r == DocumentFor(data, stringify)
  {
    if !data.Obj? {
      return Err(NotAMapping);
    }
    var fields := data.fields;
    var pdf := new Document();
    var title := Lookup(fields, "title");
    if title.Some? {
      pdf.SetFont(true, 16);
      pdf.Cell(Show(title.value, stringify));
      pdf.Ln(GapHeight);
    }
    assert pdf.marks == match Title(fields, stringify)
      case Some(t) => [Line(t, TitleFont), Gap(GapHeight)]
      case None => [];
    var sections: Fields;
    var s := Lookup(fields, "sections");
    if s.Some? {
      if !s.value.Obj? {
        return Err(SectionsNotAMapping);
      }
      sections := s.value.fields;
    } else {
      sections := fields;
    }
    assert Walked(fields) == Ok(sections);
    ProcessSections(pdf, sections, SectionsLevel, stringify);
    r := Ok(pdf.marks);
  }

  // ----- Facts about the walk -----

  lemma {:induction false} BodyConcat(a: Fields, b: Fields, level: int, stringify: Json -> string)
    ensures Body(a + b, level, stringify) == Body(a, level, stringify) + Body(b, level, stringify)
    decreases a
  {
    if a == [] {
      assert a + b == b;
    } else {
      assert (a + b)[0] == a[0];
      assert (a + b)[1..] == a[1..] + b;
      BodyConcat(a[1..], b, level, stringify);
    }
  }

  /** One more field of the loop adds its walk, and its walk goes on from
      the font the earlier fields left. */
  lemma BodyStep(fields: Fields, i: nat, level: int, stringify: Json -> string, f: Font)
    requires i < |fields|
    ensures Body(fields[..i + 1], level, stringify)
            == Body(fields[..i], level, stringify) + Body([fields[i]], level, stringify)
    ensures FontAfter(Body(fields[..i + 1], level, stringify), f)
            == FontAfter(Body([fields[i]], level, stringify), FontAfter(Body(fields[..i], level, stringify), f))
  {
    assert fields[..i + 1] == fields[..i] + [fields[i]];
    BodyConcat(fields[..i], [fields[i]], level, stringify);
    FontAfterConcat(Body(fields[..i], level, stringify), Body([fields[i]], level, stringify), f);
  }

  lemma EntryBody(key: string, value: Json, level: int, stringify: Json -> string)
    ensures Body([(key, value)], level, stringify)
            == if value.Obj? then [Line(key, HeadingFont(level))] + Body(value.fields, level + 1, stringify)
               else [Line(key, HeadingFont(level)), Block(Show(value, stringify), BodyFont), Gap(GapHeight)]
  {
    assert [(key, value)][1..] == [];
  }

  /** A mapping field: its key's line, then the mapping's walk, which starts
      from the heading font. */
  lemma NestedEntry(key: string, value: Json, level: int, stringify: Json -> string, f: Font)
    requires value.Obj?
    ensures Body([(key, value)], level, stringify) == [Line(key, HeadingFont(level))] + Body(value.fields, level + 1, stringify)
    ensures FontAfter(Body([(key, value)], level, stringify), f)
            == FontAfter(Body(value.fields, level + 1, stringify), HeadingFont(level))
  {
    EntryBody(key, value, level, stringify);
    assert FontAfter([Line(key, HeadingFont(level))], f) == HeadingFont(level);
    FontAfterConcat([Line(key, HeadingFont(level))], Body(value.fields, level + 1, stringify), f);
  }

  /** Any other field: line, text block and gap, leaving the body font. */
  lemma LeafEntry(key: string, value: Json, level: int, stringify: Json -> string, f: Font)
    requires !value.Obj?
    ensures Body([(key, value)], level, stringify)
            == [Line(key, HeadingFont(level)), Block(Show(value, stringify), BodyFont), Gap(GapHeight)]
    ensures FontAfter(Body([(key, value)], level, stringify), f) == BodyFont
  {
    EntryBody(key, value, level, stringify);
    var leaf := [Line(key, HeadingFont(level)), Block(Show(value, stringify), BodyFont), Gap(GapHeight)];
    assert leaf[..2][..1] == leaf[..1];
  }

  /** The font after two runs of marks is the font the second run leaves
      when started from the font the first leaves. */
  lemma {:induction false} FontAfterConcat(a: seq<Mark>, b: seq<Mark>, f: Font)
    ensures FontAfter(a + b, f) == FontAfter(b, FontAfter(a, f))
    decreases b
  {
    if b == [] {
      assert a + b == a;
    } else {
      var n := |b| - 1;
      assert (a + b)[|a + b| - 1] == b[n];
      assert (a + b)[..|a + b| - 1] == a + b[..n];
      if b[n].Gap? {
        FontAfterConcat(a, b[..n], f);
      }
    }
  }

  /** The walk puts one line per key and two more marks per non-mapping
      value, so its length is keys + 2 × leaves. */
  lemma {:induction false} BodyLength(fields: Fields, level: int, stringify: Json -> string)
    ensures |Body(fields, level, stringify)| == KeyCount(fields) + 2 * LeafCount(fields)
    decreases fields
  {
    if fields != [] {
      var v := fields[0].1;
      assert v < fields[0];
      if v.Obj? {
        BodyLength(v.fields, level + 1, stringify);
      }
      BodyLength(fields[1..], level, stringify);
    }
  }

  /** The heading lines of `ms` as (text, font size) pairs, in order. */
  function Lines(ms: seq<Mark>): seq<(string, int)> {
    if ms == [] then []
    else (if ms[0].Line? then [(ms[0].text, ms[0].font.size)] else []) + Lines(ms[1..])
  }

  lemma {:induction false} LinesConcat(a: seq<Mark>, b: seq<Mark>)
    ensures Lines(a + b) == Lines(a) + Lines(b)
    decreases a
  {
    if a == [] {
      assert a + b == b;
    } else {
      assert (a + b)[0] == a[0];
      assert (a + b)[1..] == a[1..] + b;
      LinesConcat(a[1..], b);
    }
  }

  /** A preorder of keys with depths, each depth turned into the heading
      size at that depth. */
  function Sized(ks: seq<(string, int)>): (r: seq<(string, int)>)
    ensures |r| == |ks|
    ensures forall i :: 0 <= i < |ks| ==> r[i] == (ks[i].0, HeadingFont(ks[i].1).size)
  {
    seq(|ks|, i requires 0 <= i < |ks| => (ks[i].0, HeadingFont(ks[i].1).size))
  }

  lemma SizedConcat(a: seq<(string, int)>, b: seq<(string, int)>)
    ensures Sized(a + b) == Sized(a) + Sized(b)
  {
    assert forall i :: 0 <= i < |a + b| ==> Sized(a + b)[i] == (Sized(a) + Sized(b))[i];
  }

  /** The heading lines are exactly the keys of the tree, in preorder and
      dictionary order, each with text `str(key)` and a bold font of size
      14 - level, where the level is the starting level + depth: so the size
      drops by one with every level of nesting. */
  lemma {:induction false} BodyLines(fields: Fields, level: int, stringify: Json -> string)
    ensures Lines(Body(fields, level, stringify)) == Sized(Keys(fields, level))
    decreases fields
  {
    if fields != [] {
      var k, v := fields[0].0, fields[0].1;
      assert v < fields[0];
      var head := Body([fields[0]], level, stringify);
      var headKeys := Keys([fields[0]], level);
      BodyConcat([fields[0]], fields[1..], level, stringify);
      KeysConcat([fields[0]], fields[1..], level);
      assert [fields[0]] + fields[1..] == fields;
      BodyLines(fields[1..], level, stringify);
      LinesConcat(head, Body(fields[1..], level, stringify));
      SizedConcat(headKeys, Keys(fields[1..], level));
      EntryLines(k, v, level, stringify);
    }
  }

  lemma EntryLines(k: string, v: Json, level: int, stringify: Json -> string)
    ensures Lines(Body([(k, v)], level, stringify)) == Sized(Keys([(k, v)], level))
    decreases v, 0
  {
    EntryBody(k, v, level, stringify);
    assert [(k, v)][1..] == [];
    if v.Obj? {
      var child := Body(v.fields, level + 1, stringify);
      BodyLines(v.fields, level + 1, stringify);
      LinesConcat([Line(k, HeadingFont(level))], child);
      assert Keys([(k, v)], level) == [(k, level)] + Keys(v.fields, level + 1);
      SizedConcat([(k, level)], Keys(v.fields, level + 1));
    } else {
      LinesConcat([Line(k, HeadingFont(level))], [Block(Show(v, stringify), BodyFont), Gap(GapHeight)]);
      LinesConcat([Block(Show(v, stringify), BodyFont)], [Gap(GapHeight)]);
      assert Keys([(k, v)], level) == [(k, level)];
    }
  }

  /** No mark of the walk started at `level` uses a font of size above
      14 - level, and every text block uses the body font. */
  predicate FontsBelow(ms: seq<Mark>, level: int) {
    forall i :: 0 <= i < |ms| ==>
      (ms[i].Line? ==> ms[i].font.bold && ms[i].font.size <= 14 - level)
      && (ms[i].Block? ==> ms[i].font == BodyFont)
  }

  lemma FontsBelowConcat(a: seq<Mark>, b: seq<Mark>, level: int)
    requires FontsBelow(a, level) && FontsBelow(b, level)
    ensures FontsBelow(a + b, level)
  {
    assert forall i :: |a| <= i < |a + b| ==> (a + b)[i] == b[i - |a|];
  }

  lemma {:induction false} BodyFontsBelow(fields: Fields, level: int, stringify: Json -> string)
    ensures FontsBelow(Body(fields, level, stringify), level)
    decreases fields
  {
    if fields != [] {
      var k, v := fields[0].0, fields[0].1;
      assert v < fields[0];
      var rest := Body(fields[1..], level, stringify);
      BodyFontsBelow(fields[1..], level, stringify);
      if v.Obj? {
        var child := Body(v.fields, level + 1, stringify);
        BodyFontsBelow(v.fields, level + 1, stringify);
        assert FontsBelow(child, level);
        FontsBelowConcat([Line(k, HeadingFont(level))], child, level);
        FontsBelowConcat([Line(k, HeadingFont(level))] + child, rest, level);
      } else {
        var leaf := [Line(k, HeadingFont(level)), Block(Show(v, stringify), BodyFont), Gap(GapHeight)];
        FontsBelowConcat(leaf, rest, level);
      }
    }
  }

  /** The document starts with the title line in the title font and a gap
      exactly when the input has a `title` key, and no other mark uses the
      title font. */
  lemma TitleLine(data: Json, stringify: Json -> string)
    requires DocumentFor(data, stringify).Ok?
    ensures data.Obj?
    ensures HasKey(data.fields, "title") ==>
              var ms := DocumentFor(data, stringify).value;
              |ms| >= 2 && ms[0] == Line(Show(Lookup(data.fields, "title").value, stringify), TitleFont)
              && ms[1] == Gap(GapHeight)
    ensures var ms := DocumentFor(data, stringify).value;
            forall i :: 0 <= i < |ms| && ms[i].Line? && ms[i].font == TitleFont
              ==> i == 0 && HasKey(data.fields, "title")
  {
    var fields := data.fields;
    var sections := Walked(fields).value;
    var body := Body(sections, SectionsLevel, stringify);
    BodyFontsBelow(sections, SectionsLevel, stringify);
    var ms := DocumentFor(data, stringify).value;
    if HasKey(fields, "title") {
      var t := [Line(Show(Lookup(fields, "title").value, stringify), TitleFont), Gap(GapHeight)];
      assert ms == t + body;
      AfterPrefix(t, body);
    } else {
      assert ms == body;
    }
  }

  /** A key deeper in the tree than another is put on the page in a
      strictly smaller font: the heading size drops with the depth. */
  lemma SizeDropsWithDepth(fields: Fields, level: int, stringify: Json -> string)
    ensures var ls := Lines(Body(fields, level, stringify));
            var ks := Keys(fields, level);
            |ls| == |ks|
            && forall i, j :: 0 <= i < |ks| && 0 <= j < |ks| && ks[i].1 < ks[j].1 ==> ls[j].1 < ls[i].1
  {
    BodyLines(fields, level, stringify);
  }
}
