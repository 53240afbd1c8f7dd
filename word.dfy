/** The Word builder `create_word_document`: a python-docx document, modelled
    as the list of paragraphs its body holds, filled by the recursive
    `process_sections` walk. */
module Word {
  import opened JsonValue
  import opened Selection

  /** One paragraph of the document body. */
  datatype Para =
    | Heading(text: string, level: int)              // `doc.add_heading(text, level=level)`
    | Paragraph(text: string, firstLineIndent: real) // `doc.add_paragraph(text)`; indent in inches, 0.0 when unset

  /** python-docx accepts heading levels 0 to 9 only. */
  const MaxHeadingLevel := 9
  const TitleLevel := 1
  /** The level `process_sections` is started at. */
  const SectionsLevel := 2
  /** `Inches(0.5)`, the first-line indent of a value's paragraph. */
  const LeafIndent: real := 0.5

  /** The empty paragraph `doc.add_paragraph()` adds after each value. */
  const Spacer := Paragraph("", 0.0)

  /** The paragraphs `process_sections(fields, level)` adds: for a mapping
      value its key's heading and then the mapping's own paragraphs one level
      deeper; for any other value its key's heading, the value's text and a
      spacer. */
  function Body(fields: Fields, level: int, stringify: Json -> string): (r: seq<Para>)
    ensures fields != [] ==> |r| > 0 && r[0] == Heading(fields[0].0, level)
    ensures fields == [] ==> r == []
    decreases fields
  {
    if fields == [] then []
    else
      var v := fields[0].1;
      assert v < fields[0];
      (if v.Obj? then [Heading(fields[0].0, level)] + Body(v.fields, level + 1, stringify)
       else [Heading(fields[0].0, level), Paragraph(Show(v, stringify), LeafIndent), Spacer])
      + Body(fields[1..], level, stringify)
  }

  /** A character lxml stores in element text: anything but the C0 control
      characters, of which only tab, line feed and carriage return pass
      (python-docx turns those three into a tab or a line break), and the
      non-characters U+FFFE and U+FFFF. */
  predicate XmlChar(c: char) {
    c == '\t' || c == '\n' || c == '\r' || (c >= ' ' && c != '\U{FFFE}' && c != '\U{FFFF}')
  }

  /** Text python-docx can write into a run without lxml raising. */
  predicate XmlText(s: string) {
    forall i :: 0 <= i < |s| ==> XmlChar(s[i])
  }

  /** A paragraph python-docx adds without raising. */
  predicate Acceptable(p: Para) {
    XmlText(p.text) && (p.Heading? ==> 0 <= p.level <= MaxHeadingLevel)
  }

  /** No paragraph that python-docx would refuse. */
  predicate Accepted(ps: seq<Para>) {
    forall i :: 0 <= i < |ps| ==> Acceptable(ps[i])
  }

  /** No heading level that python-docx would refuse. */
  predicate LevelsInRange(ps: seq<Para>) {
    forall i :: 0 <= i < |ps| && ps[i].Heading? ==> 0 <= ps[i].level <= MaxHeadingLevel
  }

  /** No text that lxml would refuse. */
  predicate TextsValid(ps: seq<Para>) {
    forall i :: 0 <= i < |ps| ==> XmlText(ps[i].text)
  }

  /** Every key of the tree, and the text of every non-mapping value, is
      text lxml stores. */
  predicate TreeText(fields: Fields, stringify: Json -> string)
    decreases fields
  {
    fields == [] ||
      (var v := fields[0].1;
       assert v < fields[0];
       XmlText(fields[0].0)
       && (if v.Obj? then TreeText(v.fields, stringify) else XmlText(Show(v, stringify)))
       && TreeText(fields[1..], stringify))
  }

  /** The strings of a list, one after another. */
  function Joined(items: seq<Json>): string {
    if items == [] then [] else (if items[0].Str? then items[0].s else []) + Joined(items[1..])
  }

  /** The keys of a dictionary, one after another. */
  function KeysJoined(fields: Fields): string {
    if fields == [] then [] else fields[0].0 + KeysJoined(fields[1..])
  }

  /** The text `add_heading(json_data['title'], level=1)` writes, or the
      error it raises. python-docx adds a run only for a truthy value and
      then iterates over it character by character, so a falsy value gives
      an empty heading, a string gives itself, a list of strings their
      concatenation and a dict its keys', and anything else raises
      `TypeError`. */
  function TitleText(v: Json): (r: Result<string>)
    ensures !Truthy(v) ==> r == Ok("")
    ensures v.Str? ==> r == Ok(v.s)
    ensures r.Err? <==> Truthy(v) && (v.Bool? || v.Int? || v.Float? || v.NaN? || v.Infinity?
                                      || (v.Arr? && exists i :: 0 <= i < |v.items| && !v.items[i].Str?))
    ensures r.Err? ==> r.error == TitleNotText
  {
    if !Truthy(v) then Ok("")
    else
      match v
      case Str(s) => Ok(s)
      case Arr(items) =>
        if forall i :: 0 <= i < |items| ==> items[i].Str? then Ok(Joined(items)) else Err(TitleNotText)
      case Obj(fields) => Ok(KeysJoined(fields))
      case _ => Err(TitleNotText)
  }

  /** The title heading of the document: none without a `title` key, else
      the heading of `TitleText`, or the error it meets. */
  function TitlePart(fields: Fields): Result<seq<Para>> {
    match Lookup(fields, "title")
    case None => Ok([])
    case Some(v) =>
      match TitleText(v)
      case Err(e) => Err(e)
      case Ok(t) => if XmlText(t) then Ok([Heading(t, TitleLevel)]) else Err(DocxRefused)
  }

  /** What `create_word_document(json_data, ...)` produces, up to saving it:
      the title heading if there is a `title` key, then the walk of the
      selected mapping from level 2; or the error it raises. */
  function DocumentFor(data: Json, stringify: Json -> string): (r: Result<seq<Para>>)
    ensures !data.Obj? ==> r == Err(NotAMapping)
    ensures r.Ok? ==> data.Obj? && Walked(data.fields).Ok?
                      && var body := Body(Walked(data.fields).value, SectionsLevel, stringify);
                         |body| <= |r.value| && r.value[|r.value| - |body|..] == body
  {
    match TopLevel(data)
    case Err(e) => Err(e)
    case Ok(fields) =>
      match TitlePart(fields)
      case Err(e) => Err(e)
      case Ok(title) =>
        match Walked(fields)
        case Err(e) => Err(e)
        case Ok(sections) =>
          var body := Body(sections, SectionsLevel, stringify);
          if Accepted(body) then Ok(title + body) else Err(DocxRefused)
  }

  /** A python-docx `Document()`: its body paragraphs in order. */
  class Document {
    var paragraphs: seq<Para>

    constructor ()
      ensures paragraphs == []
    {
      paragraphs := [];
    }

    /** `add_heading(text, level)`, which raises for a level outside 0..9,
        before it adds anything, and for text lxml refuses. */
    method AddHeading(text: string, level: int) returns (ok: bool)
      modifies this
      ensures ok <==> 0 <= level <= MaxHeadingLevel && XmlText(text)
      ensures ok ==> paragraphs == old(paragraphs) + [Heading(text, level)]
      ensures !(0 <= level <= MaxHeadingLevel) ==> paragraphs == old(paragraphs)
    {
      ok := 0 <= level <= MaxHeadingLevel && XmlText(text);
      if ok {
        paragraphs := paragraphs + [Heading(text, level)];
      }
    }

    /** `add_paragraph(text)`, which raises for text lxml refuses; returns
        the position of the new paragraph. */
    method AddParagraph(text: string) returns (ok: bool, p: nat)
      modifies this
      ensures ok <==> XmlText(text)
      ensures ok ==> p == |old(paragraphs)| && paragraphs == old(paragraphs) + [Paragraph(text, 0.0)]
    {
      ok, p := XmlText(text), |paragraphs|;
      if ok {
        paragraphs := paragraphs + [Paragraph(text, 0.0)];
      }
    }

    /** `paragraph.paragraph_format.first_line_indent = inches` */
    method SetFirstLineIndent(p: nat, inches: real)
      requires p < |paragraphs| && paragraphs[p].Paragraph?
      modifies this
      ensures paragraphs == old(paragraphs)[p := Paragraph(old(paragraphs)[p].text, inches)]
    {
      paragraphs := paragraphs[p := Paragraph(paragraphs[p].text, inches)];
    }
  }

  /** The recursive `process_sections` closure. It fails (python-docx raises)
      exactly when the walk holds a paragraph python-docx refuses; the
      partly filled document is then discarded by the caller. */
  method ProcessSections(doc: Document, fields: Fields, level: int, stringify: Json -> string)
    returns (ok: bool)
    modifies doc
    decreases fields
    ensures ok == Accepted(Body(fields, level, stringify))
    ensures ok ==> doc.paragraphs == old(doc.paragraphs) + Body(fields, level, stringify)
  {
    ghost var start := doc.paragraphs;
    var i := 0;
    while i < |fields|
      invariant 0 <= i <= |fields|
      invariant doc.paragraphs == start + Body(fields[..i], level, stringify)
      invariant Accepted(Body(fields[..i], level, stringify))
    {
      assert fields[i].1 < fields[i];
      assert fields[i] == (fields[i].0, fields[i].1);
      var entryOk := ProcessEntry(doc, fields[i].0, fields[i].1, level, stringify);
      if !entryOk {
        EntryRefused(fields, i, level, stringify);
        return false;
      }
      BodyStep(fields, i, level, stringify);
      Regrouped(start, Body(fields[..i], level, stringify), Body([fields[i]], level, stringify));
      i := i + 1;
    }
    assert fields[..i] == fields;
    ok := true;
  }

  /** One pass of the loop of `process_sections`, for the field `key: value`. */
  method ProcessEntry(doc: Document, key: string, value: Json, level: int, stringify: Json -> string)
    returns (ok: bool)
    modifies doc
    decreases value
    ensures ok == Accepted(Body([(key, value)], level, stringify))
    ensures ok ==> doc.paragraphs == old(doc.paragraphs) + Body([(key, value)], level, stringify)
  {
    ghost var start := doc.paragraphs;
    var headed := doc.AddHeading(key, level);
    if !headed {
      HeadingRefused(key, value, level, stringify);
      return false;
    }
    if value.Obj? {
      NestedEntry(key, value, level, stringify);
      var nested := ProcessSections(doc, value.fields, level + 1, stringify);
      if !nested {
        return false;
      }
      Regrouped(start, [Heading(key, level)], Body(value.fields, level + 1, stringify));
    } else {
      LeafEntry(key, value, level, stringify);
      var written := AddValue(doc, Show(value, stringify));
      if !written {
        return false;
      }
      Regrouped(start, [Heading(key, level)], [Paragraph(Show(value, stringify), LeafIndent), Spacer]);
    }
    ok := true;
  }

  /** The value's paragraph, indented half an inch, then the spacer; fails
      when lxml refuses the value's text. */
  method AddValue(doc: Document, text: string) returns (ok: bool)
    modifies doc
    ensures ok <==> XmlText(text)
    ensures ok ==> doc.paragraphs == old(doc.paragraphs) + [Paragraph(text, LeafIndent), Spacer]
  {
    var p;
    ok, p := doc.AddParagraph(text);
    if !ok {
      return;
    }
    doc.SetFirstLineIndent(p, LeafIndent);
    var spaced, _ := doc.AddParagraph("");
    assert spaced;
  }

  /** `create_word_document` up to `doc.save`: the paragraphs of the document,
      or the error it raises. */
  method Create(data: Json, stringify: Json -> string) returns (r: Result<seq<Para>>)
    ensures r == DocumentFor(data, stringify)
  {
    if !data.Obj? {
      return Err(NotAMapping);
    }
    var fields := data.fields;
    var doc := new Document();
    var title := Lookup(fields, "title");
    if title.Some? {
      var text := TitleText(title.value);
      if text.Err? {
        return Err(text.error);
      }
      var headed := doc.AddHeading(text.value, TitleLevel);
      if !headed {
        return Err(DocxRefused);
      }
      assert TitlePart(fields) == Ok([Heading(text.value, TitleLevel)]);
      assert doc.paragraphs == [Heading(text.value, TitleLevel)];
    } else {
      assert doc.paragraphs == [];
      assert TitlePart(fields) == Ok([]);
    }
    assert TitlePart(fields) == Ok(doc.paragraphs);
    var sections: Fields;
    var s := Lookup(fields, "sections");
    if s.Some? {
      if !s.value.Obj? {
        return Err(SectionsNotAMapping);
      }
      sections := s.value.fields;
    } else {
      sections := fields;
    }
    assert Walked(fields) == Ok(sections);
    var ok := ProcessSections(doc, sections, SectionsLevel, stringify);
    if !ok {
      return Err(DocxRefused);
    }
    r := Ok(doc.paragraphs);
  }

  // ----- Facts about the walk -----

  lemma {:induction false} BodyConcat(a: Fields, b: Fields, level: int, stringify: Json -> string)
    ensures Body(a + b, level, stringify) == Body(a, level, stringify) + Body(b, level, stringify)
    decreases a
  {
    if a == [] {
      assert a + b == b;
    } else {
      assert (a + b)[0] == a[0];
      assert (a + b)[1..] == a[1..] + b;
      BodyConcat(a[1..], b, level, stringify);
    }
  }

  lemma BodySplit(fields: Fields, i: nat, level: int, stringify: Json -> string)
    requires i < |fields|
    ensures Body(fields, level, stringify)
              == Body(fields[..i], level, stringify) + Body([fields[i]], level, stringify)
                 + Body(fields[i + 1..], level, stringify)
  {
    assert fields == fields[..i] + [fields[i]] + fields[i + 1..];
    BodyConcat(fields[..i] + [fields[i]], fields[i + 1..], level, stringify);
    BodyConcat(fields[..i], [fields[i]], level, stringify);
  }

  lemma EntryBody(key: string, value: Json, level: int, stringify: Json -> string)
    ensures Body([(key, value)], level, stringify)
            == if value.Obj? then [Heading(key, level)] + Body(value.fields, level + 1, stringify)
               else [Heading(key, level), Paragraph(Show(value, stringify), LeafIndent), Spacer]
  {
    assert [(key, value)][1..] == [];
  }

  /** A field whose heading python-docx refuses makes its walk refused. */
  lemma HeadingRefused(key: string, value: Json, level: int, stringify: Json -> string)
    requires !(0 <= level <= MaxHeadingLevel && XmlText(key))
    ensures !Accepted(Body([(key, value)], level, stringify))
  {
    EntryBody(key, value, level, stringify);
    assert Body([(key, value)], level, stringify)[0] == Heading(key, level);
  }

  /** A mapping field with an accepted heading: its walk is the heading and
      then the mapping's own walk, and it is accepted exactly when that is. */
  lemma NestedEntry(key: string, value: Json, level: int, stringify: Json -> string)
    requires value.Obj? && 0 <= level <= MaxHeadingLevel && XmlText(key)
    ensures Body([(key, value)], level, stringify) == [Heading(key, level)] + Body(value.fields, level + 1, stringify)
    ensures Accepted(Body([(key, value)], level, stringify)) <==> Accepted(Body(value.fields, level + 1, stringify))
  {
    EntryBody(key, value, level, stringify);
    assert Accepted([Heading(key, level)]);
    AcceptedConcat([Heading(key, level)], Body(value.fields, level + 1, stringify));
  }

  /** Any other field with an accepted heading: heading, text and spacer,
      accepted exactly when the value's text is. */
  lemma LeafEntry(key: string, value: Json, level: int, stringify: Json -> string)
    requires !value.Obj? && 0 <= level <= MaxHeadingLevel && XmlText(key)
    ensures Body([(key, value)], level, stringify)
            == [Heading(key, level), Paragraph(Show(value, stringify), LeafIndent), Spacer]
    ensures Accepted(Body([(key, value)], level, stringify)) <==> XmlText(Show(value, stringify))
  {
    EntryBody(key, value, level, stringify);
    var ps := [Heading(key, level), Paragraph(Show(value, stringify), LeafIndent), Spacer];
    assert ps[1].text == Show(value, stringify);
    assert XmlText(Spacer.text);
  }

  lemma AcceptedConcat(a: seq<Para>, b: seq<Para>)
    ensures Accepted(a + b) <==> Accepted(a) && Accepted(b)
  {
    if Accepted(a) && Accepted(b) {
      forall i | 0 <= i < |a + b|
        ensures Acceptable((a + b)[i])
      {
        if i >= |a| {
          assert (a + b)[i] == b[i - |a|];
        } else {
          assert (a + b)[i] == a[i];
        }
      }
    }
    if Accepted(a + b) {
      forall i | 0 <= i < |b|
        ensures Acceptable(b[i])
      {
        assert (a + b)[|a| + i] == b[i];
      }
      forall i | 0 <= i < |a|
        ensures Acceptable(a[i])
      {
        assert (a + b)[i] == a[i];
      }
    }
  }

  lemma LevelsInRangeConcat(a: seq<Para>, b: seq<Para>)
    ensures LevelsInRange(a + b) <==> LevelsInRange(a) && LevelsInRange(b)
  {
    if LevelsInRange(a) && LevelsInRange(b) {
      forall i | 0 <= i < |a + b| && (a + b)[i].Heading?
        ensures 0 <= (a + b)[i].level <= MaxHeadingLevel
      {
        if i >= |a| {
          assert (a + b)[i] == b[i - |a|];
        }
      }
    }
    if LevelsInRange(a + b) {
      forall i | 0 <= i < |b| && b[i].Heading?
        ensures 0 <= b[i].level <= MaxHeadingLevel
      {
        assert (a + b)[|a| + i] == b[i];
      }
      forall i | 0 <= i < |a| && a[i].Heading?
        ensures 0 <= a[i].level <= MaxHeadingLevel
      {
        assert (a + b)[i] == a[i];
      }
    }
  }

  /** One more field of the loop adds its walk, and keeps the walk
      accepted exactly when its own walk is. */
  lemma BodyStep(fields: Fields, i: nat, level: int, stringify: Json -> string)
    requires i < |fields|
    ensures Body(fields[..i + 1], level, stringify)
            == Body(fields[..i], level, stringify) + Body([fields[i]], level, stringify)
    ensures Accepted(Body(fields[..i + 1], level, stringify))
            <==> Accepted(Body(fields[..i], level, stringify)) && Accepted(Body([fields[i]], level, stringify))
  {
    assert fields[..i + 1] == fields[..i] + [fields[i]];
    BodyConcat(fields[..i], [fields[i]], level, stringify);
    AcceptedConcat(Body(fields[..i], level, stringify), Body([fields[i]], level, stringify));
  }

  /** A field whose walk is refused makes the whole walk refused. */
  lemma EntryRefused(fields: Fields, i: nat, level: int, stringify: Json -> string)
    requires i < |fields| && !Accepted(Body([fields[i]], level, stringify))
    ensures !Accepted(Body(fields, level, stringify))
  {
    BodySplit(fields, i, level, stringify);
    var done := Body(fields[..i], level, stringify);
    var here := Body([fields[i]], level, stringify);
    AcceptedConcat(done, here);
    AcceptedConcat(done + here, Body(fields[i + 1..], level, stringify));
  }

  /** The walk adds one heading per key and two paragraphs per non-mapping
      value, so its length is keys + 2 × leaves. */
  lemma {:induction false} BodyLength(fields: Fields, level: int, stringify: Json -> string)
    ensures |Body(fields, level, stringify)| == KeyCount(fields) + 2 * LeafCount(fields)
    decreases fields
  {
    if fields != [] {
      var v := fields[0].1;
      assert v < fields[0];
      if v.Obj? {
        BodyLength(v.fields, level + 1, stringify);
      }
      BodyLength(fields[1..], level, stringify);
    }
  }

  /** The heading paragraphs of `ps` as (text, level) pairs, in order. */
  function Headings(ps: seq<Para>): seq<(string, int)> {
    if ps == [] then []
    else (if ps[0].Heading? then [(ps[0].text, ps[0].level)] else []) + Headings(ps[1..])
  }

  lemma {:induction false} HeadingsConcat(a: seq<Para>, b: seq<Para>)
    ensures Headings(a + b) == Headings(a) + Headings(b)
    decreases a
  {
    if a == [] {
      assert a + b == b;
    } else {
      assert (a + b)[0] == a[0];
      assert (a + b)[1..] == a[1..] + b;
      HeadingsConcat(a[1..], b);
    }
  }

  /** The headings are exactly the keys of the tree, in preorder and
      dictionary order, each with text `str(key)` and level = starting level
      + depth. */
  lemma {:induction false} BodyHeadings(fields: Fields, level: int, stringify: Json -> string)
    ensures Headings(Body(fields, level, stringify)) == Keys(fields, level)
    decreases fields
  {
    if fields != [] {
      var k, v := fields[0].0, fields[0].1;
      assert v < fields[0];
      var rest := Body(fields[1..], level, stringify);
      BodyHeadings(fields[1..], level, stringify);
      if v.Obj? {
        var child := Body(v.fields, level + 1, stringify);
        BodyHeadings(v.fields, level + 1, stringify);
        HeadingsConcat([Heading(k, level)] + child, rest);
        HeadingsConcat([Heading(k, level)], child);
      } else {
        var leaf := [Heading(k, level), Paragraph(Show(v, stringify), LeafIndent), Spacer];
        HeadingsConcat(leaf, rest);
        HeadingsConcat([Heading(k, level)], [Paragraph(Show(v, stringify), LeafIndent), Spacer]);
        HeadingsConcat([Paragraph(Show(v, stringify), LeafIndent)], [Spacer]);
      }
    }
  }

  /** In the Word document a key at depth d of the walked mapping (0 at its
      top) gets heading level 2 + d. */
  lemma WordLevelIsTwoPlusDepth(fields: Fields, stringify: Json -> string)
    ensures Headings(Body(fields, SectionsLevel, stringify)) == Shift(Keys(fields, 0), SectionsLevel)
  {
    BodyHeadings(fields, SectionsLevel, stringify);
    KeysShift(fields, 0, SectionsLevel);
  }

  /** The paragraph at `i` belongs to a value: a value's text sits right
      after its key's heading, with the leaf indent, and right before a
      spacer; and a spacer closes such a pair. Headings need nothing. */
  predicate LeafShapedAt(ps: seq<Para>, i: nat)
    requires i < |ps|
  {
    ps[i].Paragraph? ==>
      if ps[i].firstLineIndent == LeafIndent then
        1 <= i && ps[i - 1].Heading? && i + 1 < |ps| && ps[i + 1] == Spacer
      else
        ps[i] == Spacer && 2 <= i && ps[i - 1].Paragraph? && ps[i - 1].firstLineIndent == LeafIndent
        && ps[i - 2].Heading?
  }

  predicate LeafShaped(ps: seq<Para>) {
    forall i :: 0 <= i < |ps| ==> LeafShapedAt(ps, i)
  }

  lemma LeafShapedConcat(a: seq<Para>, b: seq<Para>)
    requires LeafShaped(a) && LeafShaped(b)
    ensures LeafShaped(a + b)
  {
    forall i | 0 <= i < |a + b|
      ensures LeafShapedAt(a + b, i)
    {
      if i < |a| {
        assert LeafShapedAt(a, i);
        assert forall j :: 0 <= j < |a| ==> (a + b)[j] == a[j];
      } else {
        assert LeafShapedAt(b, i - |a|);
        assert forall j :: |a| <= j < |a + b| ==> (a + b)[j] == b[j - |a|];
      }
    }
  }

  /** A mapping value contributes no paragraph of its own: every paragraph of
      the walk is a value's text after its heading or the spacer after it. */
  lemma {:induction false} BodyLeafShaped(fields: Fields, level: int, stringify: Json -> string)
    ensures LeafShaped(Body(fields, level, stringify))
    decreases fields
  {
    if fields != [] {
      var k, v := fields[0].0, fields[0].1;
      assert v < fields[0];
      var rest := Body(fields[1..], level, stringify);
      BodyLeafShaped(fields[1..], level, stringify);
      if v.Obj? {
        var child := Body(v.fields, level + 1, stringify);
        BodyLeafShaped(v.fields, level + 1, stringify);
        LeafShapedConcat([Heading(k, level)], child);
        LeafShapedConcat([Heading(k, level)] + child, rest);
      } else {
        var leaf := [Heading(k, level), Paragraph(Show(v, stringify), LeafIndent), Spacer];
        LeafTriple(k, Show(v, stringify), level);
        LeafShapedConcat(leaf, rest);
      }
    }
  }

  /** A value's heading, indented text and spacer are leaf-shaped. */
  lemma LeafTriple(key: string, text: string, level: int)
    ensures LeafShaped([Heading(key, level), Paragraph(text, LeafIndent), Spacer])
  {
    var leaf := [Heading(key, level), Paragraph(text, LeafIndent), Spacer];
    assert LeafShapedAt(leaf, 0) && LeafShapedAt(leaf, 1) && LeafShapedAt(leaf, 2);
  }

  /** python-docx accepts the whole walk exactly when its deepest heading,
      at level `level + Height - 1`, is at most 9. */
  lemma {:induction false} LevelsInRangeIff(fields: Fields, level: int, stringify: Json -> string)
    ensures LevelsInRange(Body(fields, level, stringify))
            <==> (fields == [] || (0 <= level && level + Height(fields) <= MaxHeadingLevel + 1))
    decreases fields
  {
    if fields != [] {
      var v := fields[0].1;
      assert v < fields[0];
      LevelsInRangeIff(fields[1..], level, stringify);
      if v.Obj? {
        LevelsInRangeIff(v.fields, level + 1, stringify);
      }
      LevelsInRangeStep(fields, level, stringify);
    }
  }

  /** The step of `LevelsInRangeIff`: the fact for a walk follows from the
      facts for its first field's own walk and for the rest. */
  lemma LevelsInRangeStep(fields: Fields, level: int, stringify: Json -> string)
    requires fields != []
    requires var rest := fields[1..];
             LevelsInRange(Body(rest, level, stringify))
             <==> (rest == [] || (0 <= level && level + Height(rest) <= MaxHeadingLevel + 1))
    requires var v := fields[0].1;
             v.Obj? ==> (LevelsInRange(Body(v.fields, level + 1, stringify))
                         <==> (v.fields == [] || (0 <= level + 1 && level + 1 + Height(v.fields) <= MaxHeadingLevel + 1)))
    ensures LevelsInRange(Body(fields, level, stringify))
            <==> 0 <= level && level + Height(fields) <= MaxHeadingLevel + 1
  {
    var v := fields[0].1;
    FirstInRange(fields, level, stringify);
    HeightZero(fields[1..]);
    HeightStep(fields);
    if v.Obj? {
      HeightZero(v.fields);
      HeightBound(level, Height(v.fields), Height(fields[1..]));
    } else {
      HeightBound(level, 0, Height(fields[1..]));
    }
  }

  /** The arithmetic of that step: a first field whose own tree is `inner`
      deep, followed by fields `rest` deep, fits under level 10 from `level`
      exactly when each part does. */
  lemma HeightBound(level: int, inner: nat, rest: nat)
    ensures (0 <= level <= MaxHeadingLevel
             && (inner == 0 || (0 <= level + 1 && level + 1 + inner <= MaxHeadingLevel + 1))
             && (rest == 0 || (0 <= level && level + rest <= MaxHeadingLevel + 1)))
            <==> 0 <= level && level + Max(1 + inner, rest) <= MaxHeadingLevel + 1
  {
  }

  /** A walk is in range exactly when its first field's heading is, the
      first field's own walk is (for a mapping), and the rest of the walk is. */
  lemma FirstInRange(fields: Fields, level: int, stringify: Json -> string)
    requires fields != []
    ensures LevelsInRange(Body(fields, level, stringify))
            <==> 0 <= level <= MaxHeadingLevel
                 && (fields[0].1.Obj? ==> LevelsInRange(Body(fields[0].1.fields, level + 1, stringify)))
                 && LevelsInRange(Body(fields[1..], level, stringify))
  {
    var k, v := fields[0].0, fields[0].1;
    assert fields[0] == (k, v);
    assert [fields[0]] + fields[1..] == fields;
    BodyConcat([fields[0]], fields[1..], level, stringify);
    LevelsInRangeConcat(Body([fields[0]], level, stringify), Body(fields[1..], level, stringify));
    EntryInRange(k, v, level, stringify);
  }

  /** One field's walk is in range exactly when its heading is, and, for a
      mapping, the mapping's own walk one level deeper. */
  lemma EntryInRange(key: string, value: Json, level: int, stringify: Json -> string)
    ensures LevelsInRange(Body([(key, value)], level, stringify))
            <==> 0 <= level <= MaxHeadingLevel
                 && (value.Obj? ==> LevelsInRange(Body(value.fields, level + 1, stringify)))
  {
    EntryBody(key, value, level, stringify);
    var head := [Heading(key, level)];
    assert LevelsInRange(head) <==> 0 <= level <= MaxHeadingLevel by {
      assert head[0].Heading? && head[0].level == level;
    }
    if value.Obj? {
      LevelsInRangeConcat(head, Body(value.fields, level + 1, stringify));
    } else {
      var tail := [Paragraph(Show(value, stringify), LeafIndent), Spacer];
      assert LevelsInRange(tail) by {
        assert !tail[0].Heading? && !tail[1].Heading?;
      }
      LevelsInRangeConcat(head, tail);
      assert head + tail == [Heading(key, level), Paragraph(Show(value, stringify), LeafIndent), Spacer];
    }
  }

  lemma TextsValidConcat(a: seq<Para>, b: seq<Para>)
    ensures TextsValid(a + b) <==> TextsValid(a) && TextsValid(b)
  {
    if TextsValid(a) && TextsValid(b) {
      forall i | 0 <= i < |a + b|
        ensures XmlText((a + b)[i].text)
      {
        if i >= |a| {
          assert (a + b)[i] == b[i - |a|];
        } else {
          assert (a + b)[i] == a[i];
        }
      }
    }
    if TextsValid(a + b) {
      forall i | 0 <= i < |b|
        ensures XmlText(b[i].text)
      {
        assert (a + b)[|a| + i] == b[i];
      }
      forall i | 0 <= i < |a|
        ensures XmlText(a[i].text)
      {
        assert (a + b)[i] == a[i];
      }
    }
  }

  /** lxml stores every text of the walk exactly when it stores every key
      of the tree and the text of every non-mapping value. */
  lemma {:induction false} TextsValidIff(fields: Fields, level: int, stringify: Json -> string)
    ensures TextsValid(Body(fields, level, stringify)) <==> TreeText(fields, stringify)
    decreases fields
  {
    if fields != [] {
      var k, v := fields[0].0, fields[0].1;
      assert v < fields[0];
      assert fields[0] == (k, v);
      assert [fields[0]] + fields[1..] == fields;
      BodyConcat([fields[0]], fields[1..], level, stringify);
      TextsValidConcat(Body([fields[0]], level, stringify), Body(fields[1..], level, stringify));
      TextsValidIff(fields[1..], level, stringify);
      if v.Obj? {
        TextsValidIff(v.fields, level + 1, stringify);
      }
      EntryTexts(k, v, level, stringify);
    }
  }

  /** One field's walk has only stored texts exactly when its key is stored
      and then its mapping's walk, or its value's text, is too. */
  lemma EntryTexts(key: string, value: Json, level: int, stringify: Json -> string)
    ensures TextsValid(Body([(key, value)], level, stringify))
            <==> XmlText(key)
                 && if value.Obj? then TextsValid(Body(value.fields, level + 1, stringify))
                    else XmlText(Show(value, stringify))
  {
    EntryBody(key, value, level, stringify);
    var head := [Heading(key, level)];
    assert TextsValid(head) <==> XmlText(key) by {
      assert head[0].text == key;
    }
    if value.Obj? {
      TextsValidConcat(head, Body(value.fields, level + 1, stringify));
    } else {
      var tail := [Paragraph(Show(value, stringify), LeafIndent), Spacer];
      assert TextsValid(tail) <==> XmlText(Show(value, stringify)) by {
        assert tail[0].text == Show(value, stringify) && tail[1].text == "";
      }
      TextsValidConcat(head, tail);
      assert head + tail == [Heading(key, level), Paragraph(Show(value, stringify), LeafIndent), Spacer];
    }
  }

  /** python-docx takes the whole walk exactly when its deepest heading is
      at most at level 9 and lxml stores every key and every value's text. */
  lemma WalkAccepted(fields: Fields, level: int, stringify: Json -> string)
    ensures Accepted(Body(fields, level, stringify))
            <==> (fields == [] || (0 <= level && level + Height(fields) <= MaxHeadingLevel + 1))
                 && TreeText(fields, stringify)
  {
    var ps := Body(fields, level, stringify);
    LevelsInRangeIff(fields, level, stringify);
    TextsValidIff(fields, level, stringify);
    assert Accepted(ps) <==> LevelsInRange(ps) && TextsValid(ps);
  }

  /** Every heading of the walk is at least at its starting level. */
  lemma {:induction false} BodyLevelsAtLeast(fields: Fields, level: int, stringify: Json -> string)
    ensures forall i :: 0 <= i < |Body(fields, level, stringify)| && Body(fields, level, stringify)[i].Heading?
              ==> Body(fields, level, stringify)[i].level >= level
  {
    var ps := Body(fields, level, stringify);
    BodyHeadings(fields, level, stringify);
    KeysDepthBounds(fields, level);
    forall i | 0 <= i < |ps| && ps[i].Heading?
      ensures ps[i].level >= level
    {
      HeadingListed(ps, i);
    }
  }

  /** Every heading paragraph shows up in the list of headings. */
  lemma {:induction false} HeadingListed(ps: seq<Para>, i: nat)
    requires i < |ps| && ps[i].Heading?
    ensures exists j :: 0 <= j < |Headings(ps)| && Headings(ps)[j] == (ps[i].text, ps[i].level)
    decreases i
  {
    var head := if ps[0].Heading? then [(ps[0].text, ps[0].level)] else [];
    assert Headings(ps) == head + Headings(ps[1..]);
    if i == 0 {
      assert Headings(ps)[0] == (ps[0].text, ps[0].level);
    } else {
      assert ps[1..][i - 1] == ps[i];
      HeadingListed(ps[1..], i - 1);
      var j :| 0 <= j < |Headings(ps[1..])| && Headings(ps[1..])[j] == (ps[i].text, ps[i].level);
      assert Headings(ps)[|head| + j] == Headings(ps[1..])[j];
    }
  }

  /** The Word builder succeeds exactly when the input is a mapping, its
      title (if any) is text python-docx can write, `sections` is absent or
      a mapping, the walked tree is at most eight levels deep (its deepest
      heading is then at level 9 at most), and lxml stores every key and
      value text of that tree. */
  lemma DocumentSucceedsIff(data: Json, stringify: Json -> string)
    ensures DocumentFor(data, stringify).Ok?
            <==> data.Obj?
                 && (HasKey(data.fields, "title") ==>
                       TitleText(Lookup(data.fields, "title").value).Ok?
                       && XmlText(TitleText(Lookup(data.fields, "title").value).value))
                 && Walked(data.fields).Ok?
                 && Height(Walked(data.fields).value) <= MaxHeadingLevel + 1 - SectionsLevel
                 && TreeText(Walked(data.fields).value, stringify)
  {
    if data.Obj? && Walked(data.fields).Ok? {
      WalkAccepted(Walked(data.fields).value, SectionsLevel, stringify);
    }
  }

  /** The document starts with a level-1 heading holding the title exactly
      when the input has a `title` key, and no other heading is at level 1. */
  lemma TitleHeading(data: Json, stringify: Json -> string)
    requires DocumentFor(data, stringify).Ok?
    ensures data.Obj?
    ensures HasKey(data.fields, "title") ==>
              var ps := DocumentFor(data, stringify).value;
              |ps| > 0 && ps[0] == Heading(TitleText(Lookup(data.fields, "title").value).value, TitleLevel)
    ensures var ps := DocumentFor(data, stringify).value;
            forall i :: 0 <= i < |ps| && ps[i].Heading? && ps[i].level == TitleLevel
              ==> i == 0 && HasKey(data.fields, "title")
  {
    var fields := data.fields;
    var sections := Walked(fields).value;
    var body := Body(sections, SectionsLevel, stringify);
    BodyLevelsAtLeast(sections, SectionsLevel, stringify);
    var ps := DocumentFor(data, stringify).value;
    if HasKey(fields, "title") {
      assert ps == [Heading(TitleText(Lookup(fields, "title").value).value, TitleLevel)] + body;
      forall i | 0 < i < |ps| && ps[i].Heading?
        ensures ps[i].level >= SectionsLevel
      {
        assert ps[i] == body[i - 1];
      }
    } else {
      assert ps == body;
    }
  }

  /** The entry at position `j` of a mapping starts the walk at position
      `i`: its heading, then its text when its value is not a mapping. */
  lemma EntryPosition(fields: Fields, j: nat, level: int, stringify: Json -> string) returns (i: nat)
    requires j < |fields|
    ensures var ps := Body(fields, level, stringify);
            i < |ps| && ps[i] == Heading(fields[j].0, level)
            && (!fields[j].1.Obj? ==> i + 1 < |ps| && ps[i + 1] == Paragraph(Show(fields[j].1, stringify), LeafIndent))
  {
    BodySplit(fields, j, level, stringify);
    EntryBody(fields[j].0, fields[j].1, level, stringify);
    assert fields[j] == (fields[j].0, fields[j].1);
    var done := Body(fields[..j], level, stringify);
    var here := Body([fields[j]], level, stringify);
    var rest := Body(fields[j + 1..], level, stringify);
    i := |done|;
    ElementOfMiddle(done, here, rest, 0);
    if !fields[j].1.Obj? {
      ElementOfMiddle(done, here, rest, 1);
    }
  }

  /** Without a `sections` key the whole input is walked, so a `title` key
      also appears as an ordinary level-2 heading, followed by the title's
      text when the title is not a mapping. */
  lemma TitleAlsoWalked(data: Json, stringify: Json -> string)
    requires DocumentFor(data, stringify).Ok?
    requires data.Obj? && HasKey(data.fields, "title") && !HasKey(data.fields, "sections")
    ensures var ps := DocumentFor(data, stringify).value;
            var title := Lookup(data.fields, "title").value;
            exists i :: 1 <= i < |ps| && ps[i] == Heading("title", SectionsLevel)
              && (!title.Obj? ==> i + 1 < |ps| && ps[i + 1] == Paragraph(Show(title, stringify), LeafIndent))
  {
    var fields := data.fields;
    var title := Lookup(fields, "title").value;
    var j :| 0 <= j < |fields| && fields[j] == ("title", title);
    var t := [Heading(TitleText(title).value, TitleLevel)];
    var body := Body(fields, SectionsLevel, stringify);
    var ps := DocumentFor(data, stringify).value;
    assert ps == t + body;
    var k := EntryPosition(fields, j, SectionsLevel, stringify);
    assert ps[k + 1] == body[k];
    if !title.Obj? {
      assert ps[k + 2] == body[k + 1];
    }
  }

  /** The headings of the document after the title are the preorder keys of
      the walked mapping, from level 2: those of the `sections` mapping when
      that key exists, so no other top-level key gets a heading, and those of
      the whole input otherwise. */
  lemma DocumentHeadings(data: Json, stringify: Json -> string)
    requires DocumentFor(data, stringify).Ok?
    ensures data.Obj?
    ensures var hs := Headings(DocumentFor(data, stringify).value);
            var t := if HasKey(data.fields, "title") then 1 else 0;
            t <= |hs|
            && (HasKey(data.fields, "sections") ==>
                  Lookup(data.fields, "sections").value.Obj?
                  && hs[t..] == Keys(Lookup(data.fields, "sections").value.fields, SectionsLevel))
            && (!HasKey(data.fields, "sections") ==> hs[t..] == Keys(data.fields, SectionsLevel))
  {
    var fields := data.fields;
    var title := TitlePart(fields).value;
    var sections := Walked(fields).value;
    var body := Body(sections, SectionsLevel, stringify);
    assert DocumentFor(data, stringify).value == title + body;
    HeadingsConcat(title, body);
    BodyHeadings(sections, SectionsLevel, stringify);
    if HasKey(fields, "title") {
      assert |Headings(title)| == 1;
    } else {
      assert Headings(title) == [];
    }
  }
}
