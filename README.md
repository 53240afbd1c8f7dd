# JSON to Word and PDF converter — a Dafny model

This project models `json_converter.py`, the part of the repository that turns a
parsed JSON mapping into a Word document (python-docx) and a PDF document
(fpdf), and its entry point `convert_json`.

- `json.dfy` (`JsonValue`): the parsed JSON value, a dictionary as its ordered list
  of items, Python truthiness, `d.get(k)`, `str()` of a value, and the preorder of
  keys with their depths that both builders follow.
- `selection.dfy` (`Selection`): what both builders decide before they walk. It
  covers the non-mapping input and the choice between `json_data['sections']`
  and the whole input, and lists the errors a builder can raise.
- `word.dfy` (`Word`): `create_word_document`. A `Document` class holds the
  paragraph list that python-docx's `add_heading`, `add_paragraph` and
  `first_line_indent` build up. The recursive `process_sections` is a method with
  a loop, proved against the pure walk `Body`. python-docx raises `ValueError` for
  a heading level outside 0 to 9 and for text that lxml will not store (C0 control
  characters other than tab, line feed and carriage return, and the non-characters
  U+FFFE and U+FFFF), and `TypeError` when
  it iterates over a title that is not text. The model has these as errors.
- `pdf.dfy` (`Pdf`): `create_pdf_document`. A `Document` class holds the current
  font and the marks that fpdf's `set_font`, `cell`, `multi_cell` and `ln` put on
  the page. It is proved in the same way.
- `agreement.dfy` (`Agreement`): the two builders visit the same keys, in the same
  order, with the same texts.
- `convert.dfy` (`Converter`): the output file names, the choice of format, and the
  success flag of `convert_json`.
- `sample.dfy` (`Examples`): the sample request of `test_api.py`, worked out
  exactly for both builders.

The model takes the place of I/O as follows:
- `convert_json` receives the result of `read_json_file` as a parameter `data`.
  `None` stands for a file that could not be read or parsed.
- Saving a document is replaced by returning the paragraphs or marks it would
  contain.
- Python's `str()` of a float, list or dictionary is a parameter `stringify`.
  The model says nothing about it. `str()` of a string, `None`, a boolean, an
  int, `nan` and the infinities is written out.

Every key of the walked mapping is walked, its heading text is `str(key)`
verbatim, and every value, `None` included, is rendered.

## Model

| member | source | states |
|---|---|---|
| JsonValue.Truthy | json_converter.py:115 | a value is falsy exactly when it is `None`, `False`, zero, or an empty string, list or dict |
| JsonValue.Lookup | json_converter.py:26-31 | the value found is that of the first item with the key; `None` exactly when no item has the key |
| JsonValue.Show | json_converter.py:45 | `str()` gives a string unchanged, `None`, `True`, `False`, `nan`, `inf` and `-inf` by name, and an int as `IntText` |
| JsonValue.IntText | json_converter.py:45 | `str()` of an int: a '-' exactly when it is negative, then decimal digits that read back as its magnitude, with no leading '0'; zero is exactly "0" |
| JsonValue.DecimalRoundTrip | json_converter.py:45 | the decimal digits `str()` writes for a non-negative int read back as that int |
| JsonValue.KeysLength | json_converter.py:35-41 | the preorder of a tree lists one entry per key at every depth |
| JsonValue.KeysShift | json_converter.py:35-41 | starting the walk e levels deeper shifts every depth by e and changes nothing else |
| JsonValue.KeysDepthBounds | json_converter.py:35-41 | every depth in the preorder lies between the starting depth and the starting depth plus the tree's height, exclusive |
| Word.Body | json_converter.py:35-47 | the walk of an empty mapping adds nothing; any other walk starts with the heading of its first key at the starting level |
| Word.TitleText | json_converter.py:27 | a falsy title gives an empty heading and a string gives itself; the title is refused with `TypeError` exactly when it is a truthy number or boolean, or a list holding a non-string |
| Word.DocumentFor | json_converter.py:16-50 | a non-mapping input is the not-a-mapping error; a document that is built ends with the walk of the selected mapping from level 2 |
| Word.Document.AddHeading | json_converter.py:39 | adds one heading with the given text and level exactly when 0 <= level <= 9 and lxml stores the text; a level out of range changes nothing |
| Word.Document.AddParagraph | json_converter.py:45 | succeeds exactly when lxml stores the text, and then appends one unindented paragraph and returns its position |
| Word.Document.SetFirstLineIndent | json_converter.py:46 | changes the indent of that one paragraph only |
| Word.ProcessSections | json_converter.py:35-47 | succeeds exactly when python-docx accepts every paragraph of the walk; on success the document is the old one followed by the walk |
| Word.ProcessEntry | json_converter.py:37-47 | one loop pass, with the same success condition: a mapping gives its heading and then its own walk one level deeper; any other value gives heading, indented text and spacer |
| Word.AddValue | json_converter.py:45-47 | succeeds exactly when lxml stores the text, and then appends the value's paragraph with a half-inch first-line indent and an empty spacer paragraph |
| Word.Create | json_converter.py:16-50 | the paragraphs built, or the error raised, equal `DocumentFor` |
| Word.BodyLength | json_converter.py:35-47 | the walk has one heading per key plus two paragraphs per non-mapping value |
| Word.BodyHeadings | json_converter.py:35-47 | the walk's headings, in order, are the tree's keys in preorder, each at its own depth |
| Word.WordLevelIsTwoPlusDepth | json_converter.py:35-50 | in the document, a key's heading level is 2 plus its depth in the walked tree |
| Word.BodyLeafShaped | json_converter.py:42-47 | every indented paragraph comes right after a heading and is followed by an empty spacer paragraph |
| Word.LevelsInRangeIff | json_converter.py:35-47 | all levels are accepted if and only if the tree is empty, or the start is at least 0 and start plus height is at most 10 |
| Word.TextsValidIff | json_converter.py:35-47 | lxml stores every text of the walk if and only if it stores every key of the tree and the text of every non-mapping value |
| Word.WalkAccepted | json_converter.py:35-47 | python-docx accepts the whole walk if and only if the levels fit in 0 to 9 and lxml stores every key and value text |
| Word.BodyLevelsAtLeast | json_converter.py:35-41 | no heading of the walk is above its starting level |
| Word.DocumentSucceedsIff | json_converter.py:16-50 | the Word builder succeeds if and only if the input is a mapping, its title (if any) is text python-docx writes, `sections` is absent or a mapping, the walked tree is at most 8 deep, and lxml stores all its keys and value texts |
| Word.TitleHeading | json_converter.py:26-27 | a `title` key gives a first heading at level 1 holding the title's text; no other heading is at level 1 |
| Word.TitleAlsoWalked | json_converter.py:26-33 | without `sections`, the `title` key is also walked as a level-2 heading, followed by its text when it is not a mapping |
| Word.DocumentHeadings | json_converter.py:26-50 | after the title, the headings are exactly the preorder keys of `sections` when that key exists, so no other top-level key is walked, and of the whole input otherwise |
| Pdf.Body | json_converter.py:82-97 | the walk of an empty mapping puts nothing on the page; any other walk starts with its first key's line in the bold font of size 14 minus the level |
| Pdf.FontAfter | json_converter.py:86-95 | after marks ending in a line or a block, the current font is that mark's font |
| Pdf.FontAfterLast | json_converter.py:86-97 | the current font is that of the last line or block put on the page, or the starting font when there is none |
| Pdf.Title | json_converter.py:71-73 | a title is present exactly when some top-level key is `title`, and it is the `str` of that key's value |
| Pdf.DocumentFor | json_converter.py:62-100 | the PDF builder succeeds exactly when the input is a mapping and `sections` is absent or a mapping; otherwise it raises the matching error |
| Pdf.Document.SetFont | json_converter.py:68 | sets the current font and adds no mark |
| Pdf.Document.Cell | json_converter.py:73 | appends a line in the current font |
| Pdf.Document.MultiCell | json_converter.py:96 | appends a text block in the current font |
| Pdf.Document.Ln | json_converter.py:74 | appends a gap of the given height |
| Pdf.ProcessSections | json_converter.py:82-97 | the marks become the old marks followed by the walk, and the current font becomes the font after the walk |
| Pdf.ProcessEntry | json_converter.py:84-97 | one loop pass, with the same new marks and the same new font |
| Pdf.Create | json_converter.py:62-100 | the marks built, or the error raised, equal `DocumentFor` |
| Pdf.BodyLength | json_converter.py:82-97 | one line per key plus a block and a gap per non-mapping value |
| Pdf.BodyLines | json_converter.py:82-97 | the walk's lines, in order, are the preorder keys, each with size 14 minus its depth |
| Pdf.SizeDropsWithDepth | json_converter.py:86-89 | one line per key, and a key deeper in the tree than another gets a strictly smaller size |
| Pdf.BodyFontsBelow | json_converter.py:86-96 | no line of a walk started at level L is larger than 14 - L; every text block uses the 12-point body font |
| Pdf.TitleLine | json_converter.py:71-74 | a `title` key gives a first line in bold 16 point holding the title, then a 5-unit gap; no other line uses that font |
| Agreement.BodiesAgree | json_converter.py:35-50 | position by position, the Word walk from level L+1 matches the PDF walk from level L: same texts, and Word level l against PDF size 15 - l |
| Agreement.DocumentsAgree | json_converter.py:16-100 | Word succeeds if and only if PDF succeeds and python-docx takes the title, the tree is at most 8 deep and lxml stores its texts; both then start with the title (the same text for a string title) and their walks agree |
| Converter.LastDot | json_converter.py:119 | finds the last '.' of the name, and finds nothing exactly when there is no '.' |
| Converter.FileBase | json_converter.py:119 | `rsplit('.', 1)[0]`: the whole path when it has no '.', else the prefix that stops at the last '.' |
| Converter.FileBaseRoundTrip | json_converter.py:119 | removing an extension that holds no '.' gives back the name it was added to |
| Converter.OutputNames | json_converter.py:119-132 | the output names are the base plus `.docx` and `.pdf`, and the base comes back from either |
| Converter.Lower | json_converter.py:123 | no upper-case letter is left, every other character is kept, and a name without upper-case letters comes back unchanged |
| Converter.LowerMatches | json_converter.py:123 | lower-casing gives a lower-case name exactly when the original spells it in any mix of letter cases |
| Converter.WantsWord | json_converter.py:123 | the Word document is asked for exactly when the format spells "both" or "word" in any mix of cases |
| Converter.WantsPdf | json_converter.py:131 | the PDF document is asked for exactly when the format spells "both" or "pdf" in any mix of cases |
| Converter.FormatSelection | json_converter.py:123-131 | the choice ignores case; both documents are chosen only for "both"; any chosen format has a three- or four-letter name |
| Converter.Convert | json_converter.py:112-139 | a missing or falsy input fails and writes nothing. Otherwise success is the conjunction of the chosen builders' successes, the documents written are exactly the ones that succeeded (Word first), and an unknown format succeeds with nothing written |
| Examples.SampleWord | test_api.py:24-34 | the exact Word document for the sample request |
| Examples.SamplePdf | test_api.py:24-34 | the exact PDF document for the sample request |

## Left out

- `read_json_file` and the command-line block (`json_converter.py:141-150`) are file and process I/O. Their result comes into `Converter.Convert` as `data`.
- `print` of error messages is output only, so it is left out.
- `doc.save` and `pdf.output`, and their failures, are output I/O. A save error would make `convert_json` report failure; the model treats saving as always succeeding.
- Styles, fonts and line spacing of the Word `Normal` style are presentation with no effect on the paragraph list. So are `add_page`, `set_auto_page_break` and the cell geometry (`0, 10`, `ln=True`).
- JsonValue.Show: `str()` of floats, lists and dictionaries is Python's printing and is given by the `stringify` parameter, about which nothing is assumed.
- Strings are sequences of Unicode scalar values. A lone surrogate from a JSON escape such as `"\ud800"` cannot be represented, so lxml's refusal of it is not modelled.
- Word.TitleText: python-docx writes a tab, line feed or carriage return as a tab or break element, and a list item or dictionary key that is empty, `"\n"`, `"\r"` or `"\r\n"` as a break. The model keeps the characters as heading text and drops an empty item or key.
- Word.Document.AddHeading: when lxml refuses the text, python-docx has already added an empty heading paragraph. The model states nothing about the document in that case; `create_word_document` discards it.
- Word.Document.AddParagraph: when lxml refuses the text, python-docx has already added an empty paragraph. The model states nothing about the document in that case; `create_word_document` discards it.
- Word.ProcessSections: on failure it states only that the walk failed, not how much of the document was built. `create_word_document` discards such a document.
- Pdf.Title: a title that is not a string is shown as its `str()`. fpdf's `cell` gets the raw value, and what it does with a number, list or dictionary is not modelled.
- Pdf.Document.SetFont: records the requested size `14 - level` as it is. It does not model fpdf keeping the current size when the size is 0, which happens at level 14. It does not model fpdf's handling of negative sizes either.
- Pdf.Document.Cell: does not model fpdf's failure on characters outside Latin-1.
- Pdf.DocumentFor: has no error path for fpdf's own failures (text outside Latin-1, a title that is not text). So the PDF side of `Agreement.DocumentsAgree` and `Converter.Convert` may succeed where fpdf raises.
- Agreement.DocumentsAgree: inherits the gap above. On input that fpdf refuses, it may call the PDF build successful where the program reports failure.
- Converter.Lower: handles the letters A to Z only. Python's `lower()` on other Unicode letters is not modelled. It cannot turn a name into "both", "word" or "pdf" unless that name is already all ASCII.
- Python's recursion limit on very deep trees is not modelled. It would end the walk with `RecursionError`.
- JsonValue.Lookup: a dictionary is the ordered list of its items. JSON parsing keeps one item per key, so the model does not require keys to be distinct. If a list repeated a key, the walk would visit every item, while `Lookup` would return the first.
- `app.py` (the HTTP service), `quick_test.py` and `test_api.py` are clients of this core. Only the sample request from `test_api.py` appears, as `Examples`.
