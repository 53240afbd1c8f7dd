/** The two builders walk the same tree the same way: they visit the same
    keys in the same order with the same texts, and differ only in the
    starting level (2 for Word, 1 for PDF) and in how a level is shown. */
module Agreement {
  import opened JsonValue
  import opened Selection
  import Word
  import Pdf

  /** A Word paragraph and the PDF mark in the same position of the walk: a
      heading at Word level l is a line at PDF level l - 1, a value's text is
      a text block in the body font, and a spacer is the gap. */
  predicate Corresponds(p: Word.Para, m: Pdf.Mark) {
    match p
    case Heading(t, l) => m == Pdf.Line(t, Pdf.HeadingFont(l - 1))
    case Paragraph(t, indent) =>
      if indent == Word.LeafIndent then m == Pdf.Block(t, Pdf.BodyFont)
      else p == Word.Spacer && m == Pdf.Gap(Pdf.GapHeight)
  }

  predicate Agree(ps: seq<Word.Para>, ms: seq<Pdf.Mark>) {
    |ps| == |ms| && forall i :: 0 <= i < |ps| ==> Corresponds(ps[i], ms[i])
  }

  lemma AgreeConcat(ps: seq<Word.Para>, ms: seq<Pdf.Mark>, ps': seq<Word.Para>, ms': seq<Pdf.Mark>)
    requires Agree(ps, ms) && Agree(ps', ms')
    ensures Agree(ps + ps', ms + ms')
  {
    forall i | 0 <= i < |ps + ps'|
      ensures Corresponds((ps + ps')[i], (ms + ms')[i])
    {
      if i >= |ps| {
        assert (ps + ps')[i] == ps'[i - |ps|] && (ms + ms')[i] == ms'[i - |ps|];
      } else {
        assert (ps + ps')[i] == ps[i] && (ms + ms')[i] == ms[i];
      }
    }
  }

  /** Position by position, the Word walk started one level deeper matches
      the PDF walk: same keys, same order, same texts, levels one apart. */
  lemma {:induction false} BodiesAgree(fields: Fields, level: int, stringify: Json -> string)
    ensures Agree(Word.Body(fields, level + 1, stringify), Pdf.Body(fields, level, stringify))
    decreases fields
  {
    if fields != [] {
      var k, v := fields[0].0, fields[0].1;
      assert v < fields[0];
      var ps := Word.Body(fields[1..], level + 1, stringify);
      var ms := Pdf.Body(fields[1..], level, stringify);
      BodiesAgree(fields[1..], level, stringify);
      if v.Obj? {
        BodiesAgree(v.fields, level + 1, stringify);
        var head, line := [Word.Heading(k, level + 1)], [Pdf.Line(k, Pdf.HeadingFont(level))];
        assert Agree(head, line);
        AgreeConcat(head, line, Word.Body(v.fields, level + 2, stringify), Pdf.Body(v.fields, level + 1, stringify));
        AgreeConcat(head + Word.Body(v.fields, level + 2, stringify), line + Pdf.Body(v.fields, level + 1, stringify), ps, ms);
      } else {
        var leafW := [Word.Heading(k, level + 1), Word.Paragraph(Show(v, stringify), Word.LeafIndent), Word.Spacer];
        var leafP := [Pdf.Line(k, Pdf.HeadingFont(level)), Pdf.Block(Show(v, stringify), Pdf.BodyFont), Pdf.Gap(Pdf.GapHeight)];
        assert Agree(leafW, leafP);
        AgreeConcat(leafW, leafP, ps, ms);
      }
    }
  }

  /** The two documents built from the same input: the Word builder succeeds
      exactly when the PDF builder does, the title is text python-docx can
      write, the walked tree is at most eight levels deep and lxml stores
      its every key and value text. When both succeed, they start with the
      same title (the same text when the title is a string) and their walks
      agree position by position. */
  lemma DocumentsAgree(data: Json, stringify: Json -> string)
    ensures Word.DocumentFor(data, stringify).Ok?
            <==> Pdf.DocumentFor(data, stringify).Ok?
                 && (HasKey(data.fields, "title") ==>
                       Word.TitleText(Lookup(data.fields, "title").value).Ok?
                       && Word.XmlText(Word.TitleText(Lookup(data.fields, "title").value).value))
                 && Height(Walked(data.fields).value) <= Word.MaxHeadingLevel + 1 - Word.SectionsLevel
                 && Word.TreeText(Walked(data.fields).value, stringify)
    ensures Word.DocumentFor(data, stringify).Ok? ==>
              var ps := Word.DocumentFor(data, stringify).value;
              var ms := Pdf.DocumentFor(data, stringify).value;
              if HasKey(data.fields, "title") then
                var title := Lookup(data.fields, "title").value;
                |ps| >= 1 && |ms| >= 2
                && ps[0] == Word.Heading(Word.TitleText(title).value, Word.TitleLevel)
                && ms[0] == Pdf.Line(Show(title, stringify), Pdf.TitleFont)
                && (title.Str? ==> ps[0].text == ms[0].text)
                && Agree(ps[1..], ms[2..])
              else Agree(ps, ms)
  {
    SameOutcome(data, stringify);
    if Word.DocumentFor(data, stringify).Ok? {
      SameContents(data, stringify);
    }
  }

  /** When each builder succeeds is decided by the same selection, plus the
      python-docx conditions on the Word side. */
  lemma SameOutcome(data: Json, stringify: Json -> string)
    ensures Word.DocumentFor(data, stringify).Ok?
            <==> Pdf.DocumentFor(data, stringify).Ok?
                 && (HasKey(data.fields, "title") ==>
                       Word.TitleText(Lookup(data.fields, "title").value).Ok?
                       && Word.XmlText(Word.TitleText(Lookup(data.fields, "title").value).value))
                 && Height(Walked(data.fields).value) <= Word.MaxHeadingLevel + 1 - Word.SectionsLevel
                 && Word.TreeText(Walked(data.fields).value, stringify)
  {
    Word.DocumentSucceedsIff(data, stringify);
  }

  /** Both documents are the title part followed by the walk of the same
      mapping. */
  lemma SameContents(data: Json, stringify: Json -> string)
    requires Word.DocumentFor(data, stringify).Ok?
    ensures Pdf.DocumentFor(data, stringify).Ok?
    ensures var ps := Word.DocumentFor(data, stringify).value;
            var ms := Pdf.DocumentFor(data, stringify).value;
            if HasKey(data.fields, "title") then
              var title := Lookup(data.fields, "title").value;
              |ps| >= 1 && |ms| >= 2
              && ps[0] == Word.Heading(Word.TitleText(title).value, Word.TitleLevel)
              && ms[0] == Pdf.Line(Show(title, stringify), Pdf.TitleFont)
              && (title.Str? ==> ps[0].text == ms[0].text)
              && Agree(ps[1..], ms[2..])
            else Agree(ps, ms)
  {
    var fields := data.fields;
    var sections := Walked(fields).value;
    BodiesAgree(sections, Pdf.SectionsLevel, stringify);
    var wb := Word.Body(sections, Word.SectionsLevel, stringify);
    var pb := Pdf.Body(sections, Pdf.SectionsLevel, stringify);
    var ps := Word.DocumentFor(data, stringify).value;
    var ms := Pdf.DocumentFor(data, stringify).value;
    if HasKey(fields, "title") {
      var title := Lookup(fields, "title").value;
      assert ps == [Word.Heading(Word.TitleText(title).value, Word.TitleLevel)] + wb;
      assert ms == [Pdf.Line(Show(title, stringify), Pdf.TitleFont), Pdf.Gap(Pdf.GapHeight)] + pb;
      assert ps[1..] == wb;
      assert ms[2..] == pb;
    } else {
      assert ps == wb && ms == pb;
    }
  }
}
