/** The entry point `convert_json`: output names derived from the input path,
    the choice of documents by format, and the success flag. Reading the JSON
    file is outside the model: its result comes in as `data`, `None` when the
    file could not be read or parsed. */
module Converter {
  import opened JsonValue
  import opened Selection
  import Word
  import Pdf

  /** The position of the last '.' in `s`, if any. */
  function LastDot(s: string): (r: Option<nat>)
    ensures r.None? <==> forall i :: 0 <= i < |s| ==> s[i] != '.'
    ensures r.Some? ==> r.value < |s| && s[r.value] == '.'
                        && forall i :: r.value < i < |s| ==> s[i] != '.'
  {
    if s == [] then None
    else if s[|s| - 1] == '.' then Some(|s| - 1)
    else LastDot(s[..|s| - 1])
  }

  /** `path.rsplit('.', 1)[0]`: the path without the text from its last '.'
      on; a path without a '.' is kept whole. A '.' in a directory name
      counts like any other. */
  function FileBase(path: string): (base: string)
    ensures '.' !in path ==> base == path
    ensures '.' in path ==> |base| < |path| && path[..|base|] == base && path[|base|] == '.'
                            && forall i :: |base| < i < |path| ==> path[i] != '.'
  {
    match LastDot(path)
    case None => path
    case Some(i) => path[..i]
  }

  /** Removing an extension that holds no '.' gives back the name it was
      added to. */
  lemma FileBaseRoundTrip(base: string, ext: string)
    requires '.' !in ext
    ensures FileBase(base + "." + ext) == base
  {
    var path := base + "." + ext;
    assert path[|base|] == '.';
    assert forall i :: |base| < i < |path| ==> path[i] == ext[i - |base| - 1];
    var r := LastDot(path);
    assert r == Some(|base|);
    assert path[..|base|] == base;
  }

  /** The Word output name `f"{file_base}.docx"`. */
  function WordName(path: string): string {
    FileBase(path) + ".docx"
  }

  /** The PDF output name `f"{file_base}.pdf"`. */
  function PdfName(path: string): string {
    FileBase(path) + ".pdf"
  }

  /** Both output names end in the builder's extension after the input's own
      extension is dropped, so the input name comes back from either. */
  lemma OutputNames(base: string, ext: string)
    requires '.' !in ext
    ensures WordName(base + "." + ext) == base + ".docx"
    ensures PdfName(base + "." + ext) == base + ".pdf"
    ensures FileBase(WordName(base + "." + ext)) == base
    ensures FileBase(PdfName(base + "." + ext)) == base
  {
    FileBaseRoundTrip(base, ext);
    assert base + ".docx" == base + "." + "docx";
    assert base + ".pdf" == base + "." + "pdf";
    FileBaseRoundTrip(base, "docx");
    FileBaseRoundTrip(base, "pdf");
  }

  function LowerChar(c: char): char {
    if 'A' <= c <= 'Z' then (c as int - 'A' as int + 'a' as int) as char else c
  }

  predicate Upper(c: char) {
    'A' <= c <= 'Z'
  }

  /** `s.lower()` on the letters A to Z: no upper-case letter is left, and
      every other character is kept. */
  function Lower(s: string): (r: string)
    ensures |r| == |s|
    ensures forall i :: 0 <= i < |r| ==> !Upper(r[i])
    ensures forall i :: 0 <= i < |s| ==> r[i] == s[i] || (Upper(s[i]) && r[i] as int == s[i] as int + 32)
    ensures (forall i :: 0 <= i < |s| ==> !Upper(s[i])) ==> r == s
  {
    seq(|s|, i requires 0 <= i < |s| => LowerChar(s[i]))
  }

  /** `s` spells the lower-case name `p` in any mix of letter cases: each
      character is that of `p` or, for a letter, its upper-case form. */
  predicate SameIgnoringCase(s: string, p: string) {
    |s| == |p|
    && forall i :: 0 <= i < |s| ==> s[i] == p[i] || ('a' <= p[i] <= 'z' && s[i] as int == p[i] as int - 32)
  }

  /** Lower-casing gives a name without upper-case letters exactly when the
      original spells it in any mix of cases. */
  lemma LowerMatches(s: string, p: string)
    requires forall i :: 0 <= i < |p| ==> !Upper(p[i])
    ensures Lower(s) == p <==> SameIgnoringCase(s, p)
  {
    var r := Lower(s);
    if r == p {
      forall i | 0 <= i < |s|
        ensures s[i] == p[i] || ('a' <= p[i] <= 'z' && s[i] as int == p[i] as int - 32)
      {
        assert r[i] == LowerChar(s[i]);
      }
    }
    if SameIgnoringCase(s, p) {
      forall i | 0 <= i < |s|
        ensures r[i] == p[i]
      {
        assert r[i] == LowerChar(s[i]);
      }
    }
  }

  /** `output_format.lower() in ["both", "word"]` */
  predicate WantsWord(format: string)
    ensures WantsWord(format) <==> SameIgnoringCase(format, "both") || SameIgnoringCase(format, "word")
  {
    LowerMatches(format, "both");
    LowerMatches(format, "word");
    Lower(format) in ["both", "word"]
  }

  /** `output_format.lower() in ["both", "pdf"]` */
  predicate WantsPdf(format: string)
    ensures WantsPdf(format) <==> SameIgnoringCase(format, "both") || SameIgnoringCase(format, "pdf")
  {
    LowerMatches(format, "both");
    LowerMatches(format, "pdf");
    Lower(format) in ["both", "pdf"]
  }

  /** The choice ignores case, asks for both documents only for "both", and
      asks for at least one only for a four- or three-letter name. */
  lemma FormatSelection(format: string)
    ensures WantsWord(format) == WantsWord(Lower(format))
    ensures WantsPdf(format) == WantsPdf(Lower(format))
    ensures WantsWord(format) && WantsPdf(format) <==> Lower(format) == "both"
    ensures WantsWord(format) || WantsPdf(format) ==> |format| == 3 || |format| == 4
  {
    assert forall c: char :: LowerChar(LowerChar(c)) == LowerChar(c);
    assert Lower(Lower(format)) == Lower(format);
  }

  /** A document `convert_json` wrote. */
  datatype Written =
    | WordFile(name: string, paragraphs: seq<Word.Para>)
    | PdfFile(name: string, marks: seq<Pdf.Mark>)

  /** `convert_json(json_file_path, output_format)` once the file has been
      read into `data`: the success flag and the documents written, in order. */
  method Convert(path: string, format: string, data: Option<Json>, stringify: Json -> string)
    returns (success: bool, written: seq<Written>)
    ensures data.None? || !Truthy(data.value) ==> !success && written == []
    ensures data.Some? && Truthy(data.value) ==>
              success == ((WantsWord(format) ==> Word.DocumentFor(data.value, stringify).Ok?)
                          && (WantsPdf(format) ==> Pdf.DocumentFor(data.value, stringify).Ok?))
    ensures written ==
              (if data.Some? && Truthy(data.value) && WantsWord(format) && Word.DocumentFor(data.value, stringify).Ok?
               then [WordFile(WordName(path), Word.DocumentFor(data.value, stringify).value)] else [])
              + (if data.Some? && Truthy(data.value) && WantsPdf(format) && Pdf.DocumentFor(data.value, stringify).Ok?
                 then [PdfFile(PdfName(path), Pdf.DocumentFor(data.value, stringify).value)] else [])
    ensures data.Some? && Truthy(data.value) && !WantsWord(format) && !WantsPdf(format) ==> success && written == []
    ensures success ==> |written| == (if WantsWord(format) then 1 else 0) + (if WantsPdf(format) then 1 else 0)
  {
    success, written := false, [];
    if data.None? || !Truthy(data.value) {
      return;
    }
    var json := data.value;
    var base := FileBase(path);
    success := true;
    if WantsWord(format) {
      var r := Word.Create(json, stringify);
      if r.Ok? {
        written := written + [WordFile(base + ".docx", r.value)];
      } else {
        success := false;
      }
    }
    if WantsPdf(format) {
      var r := Pdf.Create(json, stringify);
      if r.Ok? {
        written := written + [PdfFile(base + ".pdf", r.value)];
      } else {
        success := false;
      }
    }
  }
}
