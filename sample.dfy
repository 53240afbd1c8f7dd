/** The sample request of test_api.py, walked by both builders. */
module Examples {
  import opened JsonValue
  import opened Selection
  import Word
  import Pdf

  const Chapter: Fields := [
    ("Section 1.1", Str("This is section 1.1")),
    ("Section 1.2", Str("This is section 1.2"))]

  const Sections: Fields := [
    ("Introduction", Str("This is a test document.")),
    ("Chapter 1", Obj(Chapter)),
    ("Conclusion", Str("This is the conclusion."))]

  const Sample := Obj([("title", Str("Test Document")), ("sections", Obj(Sections))])

  /** Both builders take the title and walk the `sections` mapping. */
  lemma SampleSelection(stringify: Json -> string)
    ensures TopLevel(Sample) == Ok(Sample.fields)
    ensures Word.TitlePart(Sample.fields) == Ok([Word.Heading("Test Document", 1)])
    ensures Pdf.Title(Sample.fields, stringify) == Some("Test Document")
    ensures Walked(Sample.fields) == Ok(Sections)
  {
    assert Lookup(Sample.fields, "title") == Some(Str("Test Document"));
    assert Lookup(Sample.fields[1..], "sections") == Some(Obj(Sections));
  }

  lemma WordChapter(stringify: Json -> string)
    ensures Word.Body(Chapter, 3, stringify) == [
      Word.Heading("Section 1.1", 3), Word.Paragraph("This is section 1.1", 0.5), Word.Spacer,
      Word.Heading("Section 1.2", 3), Word.Paragraph("This is section 1.2", 0.5), Word.Spacer]
  {
    assert Chapter == [Chapter[0]] + [Chapter[1]];
    Word.BodyConcat([Chapter[0]], [Chapter[1]], 3, stringify);
    Word.EntryBody("Section 1.1", Str("This is section 1.1"), 3, stringify);
    Word.EntryBody("Section 1.2", Str("This is section 1.2"), 3, stringify);
  }

  lemma WordSections(stringify: Json -> string)
    ensures Word.Body(Sections, 2, stringify) == [
      Word.Heading("Introduction", 2), Word.Paragraph("This is a test document.", 0.5), Word.Spacer,
      Word.Heading("Chapter 1", 2),
      Word.Heading("Section 1.1", 3), Word.Paragraph("This is section 1.1", 0.5), Word.Spacer,
      Word.Heading("Section 1.2", 3), Word.Paragraph("This is section 1.2", 0.5), Word.Spacer,
      Word.Heading("Conclusion", 2), Word.Paragraph("This is the conclusion.", 0.5), Word.Spacer]
  {
    WordChapter(stringify);
    WordSectionEntries(stringify);
    assert Sections == [Sections[0]] + [Sections[1]] + [Sections[2]];
    Word.BodyConcat([Sections[0]] + [Sections[1]], [Sections[2]], 2, stringify);
    Word.BodyConcat([Sections[0]], [Sections[1]], 2, stringify);
  }

  /** The three top-level entries of the sections, one by one. */
  lemma WordSectionEntries(stringify: Json -> string)
    ensures Word.Body([Sections[0]], 2, stringify) == [
      Word.Heading("Introduction", 2), Word.Paragraph("This is a test document.", 0.5), Word.Spacer]
    ensures Word.Body([Sections[1]], 2, stringify) == [Word.Heading("Chapter 1", 2)] + Word.Body(Chapter, 3, stringify)
    ensures Word.Body([Sections[2]], 2, stringify) == [
      Word.Heading("Conclusion", 2), Word.Paragraph("This is the conclusion.", 0.5), Word.Spacer]
  {
    Word.EntryBody("Introduction", Str("This is a test document."), 2, stringify);
    Word.EntryBody("Chapter 1", Obj(Chapter), 2, stringify);
    Word.EntryBody("Conclusion", Str("This is the conclusion."), 2, stringify);
  }

  /** The Word document: the title at level 1, then the sections from level
      2, the nested chapter's entries at level 3. */
  lemma SampleWord(stringify: Json -> string)
    ensures Word.DocumentFor(Sample, stringify) == Ok([Word.Heading("Test Document", 1)] + [
      Word.Heading("Introduction", 2), Word.Paragraph("This is a test document.", 0.5), Word.Spacer,
      Word.Heading("Chapter 1", 2),
      Word.Heading("Section 1.1", 3), Word.Paragraph("This is section 1.1", 0.5), Word.Spacer,
      Word.Heading("Section 1.2", 3), Word.Paragraph("This is section 1.2", 0.5), Word.Spacer,
      Word.Heading("Conclusion", 2), Word.Paragraph("This is the conclusion.", 0.5), Word.Spacer])
  {
    SampleSelection(stringify);
    WordSections(stringify);
    WordSectionsAccepted(stringify);
  }

  /** python-docx takes every paragraph of the nested chapter's walk. */
  lemma WordChapterAccepted(stringify: Json -> string)
    ensures Word.Accepted(Word.Body(Chapter, 3, stringify))
  {
    ChapterTexts();
    Word.LeafEntry("Section 1.1", Str("This is section 1.1"), 3, stringify);
    Word.LeafEntry("Section 1.2", Str("This is section 1.2"), 3, stringify);
    var a, b := Word.Body([Chapter[0]], 3, stringify), Word.Body([Chapter[1]], 3, stringify);
    assert Word.Accepted(a) && Word.Accepted(b);
    assert Chapter == [Chapter[0]] + [Chapter[1]];
    Word.BodyConcat([Chapter[0]], [Chapter[1]], 3, stringify);
    Word.AcceptedConcat(a, b);
  }

  /** python-docx takes every paragraph of the sample's walk. */
  lemma WordSectionsAccepted(stringify: Json -> string)
    ensures Word.Accepted(Word.Body(Sections, 2, stringify))
  {
    WordChapterAccepted(stringify);
    SectionTexts();
    Word.LeafEntry("Introduction", Str("This is a test document."), 2, stringify);
    Word.NestedEntry("Chapter 1", Obj(Chapter), 2, stringify);
    Word.LeafEntry("Conclusion", Str("This is the conclusion."), 2, stringify);
    var a, b, c := Word.Body([Sections[0]], 2, stringify), Word.Body([Sections[1]], 2, stringify), Word.Body([Sections[2]], 2, stringify);
    assert Word.Accepted(a) && Word.Accepted(b) && Word.Accepted(c);
    assert Sections == [Sections[0]] + [Sections[1]] + [Sections[2]];
    Word.BodyConcat([Sections[0]] + [Sections[1]], [Sections[2]], 2, stringify);
    Word.BodyConcat([Sections[0]], [Sections[1]], 2, stringify);
    Word.AcceptedConcat(a, b);
    Word.AcceptedConcat(a + b, c);
  }

  /** lxml stores the keys and texts of the chapter. */
  lemma ChapterTexts()
    ensures Word.XmlText("Section 1.1") && Word.XmlText("This is section 1.1")
    ensures Word.XmlText("Section 1.2") && Word.XmlText("This is section 1.2")
  {
  }

  /** lxml stores the top-level keys and texts of the sections. */
  lemma SectionTexts()
    ensures Word.XmlText("Introduction") && Word.XmlText("This is a test document.")
    ensures Word.XmlText("Chapter 1")
    ensures Word.XmlText("Conclusion") && Word.XmlText("This is the conclusion.")
  {
  }

  lemma PdfChapter(stringify: Json -> string)
    ensures Pdf.Body(Chapter, 2, stringify) == [
      Pdf.Line("Section 1.1", Pdf.Font(true, 12)), Pdf.Block("This is section 1.1", Pdf.BodyFont), Pdf.Gap(5),
      Pdf.Line("Section 1.2", Pdf.Font(true, 12)), Pdf.Block("This is section 1.2", Pdf.BodyFont), Pdf.Gap(5)]
  {
    assert Chapter == [Chapter[0]] + [Chapter[1]];
    Pdf.BodyConcat([Chapter[0]], [Chapter[1]], 2, stringify);
    Pdf.EntryBody("Section 1.1", Str("This is section 1.1"), 2, stringify);
    Pdf.EntryBody("Section 1.2", Str("This is section 1.2"), 2, stringify);
  }

  /** The three top-level entries of the sections, one by one. */
  lemma PdfSectionEntries(stringify: Json -> string)
    ensures Pdf.Body([Sections[0]], 1, stringify) == [
      Pdf.Line("Introduction", Pdf.Font(true, 13)), Pdf.Block("This is a test document.", Pdf.BodyFont), Pdf.Gap(5)]
    ensures Pdf.Body([Sections[1]], 1, stringify) == [Pdf.Line("Chapter 1", Pdf.Font(true, 13))] + Pdf.Body(Chapter, 2, stringify)
    ensures Pdf.Body([Sections[2]], 1, stringify) == [
      Pdf.Line("Conclusion", Pdf.Font(true, 13)), Pdf.Block("This is the conclusion.", Pdf.BodyFont), Pdf.Gap(5)]
  {
    Pdf.EntryBody("Introduction", Str("This is a test document."), 1, stringify);
    Pdf.EntryBody("Chapter 1", Obj(Chapter), 1, stringify);
    Pdf.EntryBody("Conclusion", Str("This is the conclusion."), 1, stringify);
  }

  lemma PdfSections(stringify: Json -> string)
    ensures Pdf.Body(Sections, 1, stringify) == [
      Pdf.Line("Introduction", Pdf.Font(true, 13)), Pdf.Block("This is a test document.", Pdf.BodyFont), Pdf.Gap(5),
      Pdf.Line("Chapter 1", Pdf.Font(true, 13)),
      Pdf.Line("Section 1.1", Pdf.Font(true, 12)), Pdf.Block("This is section 1.1", Pdf.BodyFont), Pdf.Gap(5),
      Pdf.Line("Section 1.2", Pdf.Font(true, 12)), Pdf.Block("This is section 1.2", Pdf.BodyFont), Pdf.Gap(5),
      Pdf.Line("Conclusion", Pdf.Font(true, 13)), Pdf.Block("This is the conclusion.", Pdf.BodyFont), Pdf.Gap(5)]
  {
    PdfChapter(stringify);
    PdfSectionEntries(stringify);
    assert Sections == [Sections[0]] + [Sections[1]] + [Sections[2]];
    Pdf.BodyConcat([Sections[0]] + [Sections[1]], [Sections[2]], 1, stringify);
    Pdf.BodyConcat([Sections[0]], [Sections[1]], 1, stringify);
  }

  /** The PDF document: the title line and gap, then the sections from level
      1 (headings of size 13), the nested chapter's entries at size 12. */
  lemma SamplePdf(stringify: Json -> string)
    ensures Pdf.DocumentFor(Sample, stringify) == Ok([Pdf.Line("Test Document", Pdf.TitleFont), Pdf.Gap(5)] + [
      Pdf.Line("Introduction", Pdf.Font(true, 13)), Pdf.Block("This is a test document.", Pdf.BodyFont), Pdf.Gap(5),
      Pdf.Line("Chapter 1", Pdf.Font(true, 13)),
      Pdf.Line("Section 1.1", Pdf.Font(true, 12)), Pdf.Block("This is section 1.1", Pdf.BodyFont), Pdf.Gap(5),
      Pdf.Line("Section 1.2", Pdf.Font(true, 12)), Pdf.Block("This is section 1.2", Pdf.BodyFont), Pdf.Gap(5),
      Pdf.Line("Conclusion", Pdf.Font(true, 13)), Pdf.Block("This is the conclusion.", Pdf.BodyFont), Pdf.Gap(5)])
  {
    SampleSelection(stringify);
    PdfSections(stringify);
  }

  /** A key holding the non-character U+FFFF: python-docx refuses its
      heading, so the Word build fails while the PDF build does not. */
  const Refused := Obj([("a\U{FFFF}", Str("x"))])

  lemma NonCharacterRefused(stringify: Json -> string)
    ensures Word.DocumentFor(Refused, stringify) == Err(DocxRefused)
    ensures Pdf.DocumentFor(Refused, stringify).Ok?
  {
    var fields := Refused.fields;
    assert Lookup(fields, "title") == None && Lookup(fields, "sections") == None;
    var body := Word.Body(fields, Word.SectionsLevel, stringify);
    assert body[0] == Word.Heading("a\U{FFFF}", 2);
    assert !Word.XmlChar(body[0].text[1]);
  }
}
