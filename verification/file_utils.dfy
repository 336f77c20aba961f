/**
 * The upload text extractor `extract_text_from_file`: it derives an
 * extension from the file name, dispatches on it, joins the pages of a PDF
 * or the paragraphs of a Word document line by line, and turns every
 * failure into a fixed-format string instead of raising.
 *
 * The third-party parsers and the UTF-8 decoder are not modelled: what they
 * produce for a file (or the message of the exception they raise) is part
 * of the file record, and whether a parser library can be imported is part
 * of the environment.
 */
module FileUtils {
  import opened Wrappers
  import opened Strings

  /** What a foreign call produced: a value, or an exception whose
      `str(e)` is `message`. `importError` says whether the exception is an
      `ImportError`, which the reader branches catch on their own. */
  datatype Parse<T> = Parsed(value: T) | Raised(message: string, importError: bool)

  /** An uploaded file as the extractor sees it. `decoded` is the outcome
      of `file.getvalue().decode('utf-8')`; `pdfPages` is the outcome of
      opening the bytes with `PyPDF2.PdfReader` and calling `extract_text()`
      on each page; `docxParagraphs` is the outcome of opening them with
      `docx.Document` and reading each paragraph's `text`. */
  datatype UploadedFile = UploadedFile(
    name: string,
    decoded: Parse<string>,
    pdfPages: Parse<seq<string>>,
    docxParagraphs: Parse<seq<string>>)

  /** Which optional parser libraries `import` finds. */
  datatype Libraries = Libraries(hasPyPdf2: bool, hasDocx: bool)

  /** The four ways the extractor can go, chosen by the extension. */
  datatype Handler = PlainText | Pdf | Word | Unsupported

  const PyPdf2Missing: string :=
    "Error: PyPDF2 library not installed. Install with 'pip install PyPDF2'"
  const DocxMissing: string :=
    "Error: python-docx library not installed. Install with 'pip install python-docx'"
  const UnsupportedPrefix: string := "Unsupported file type: "
  const ProcessingErrorPrefix: string := "Error processing file: "

  /** `'.' + name.split('.')[-1].lower()` */
  function FileExtension(name: string): string
  {
    "." + Lower(Last(Split(name, '.')))
  }

  /** The branch an extension selects. */
  function Dispatch(ext: string): Handler
  {
    if ext in [".txt", ".md"] then PlainText
    else if ext == ".pdf" then Pdf
    else if ext in [".doc", ".docx"] then Word
    else Unsupported
  }

  /** The text the PDF and Word loops build: each piece followed by a
      newline, in order. */
  function JoinLines(pieces: seq<string>): string
    decreases |pieces|
  {
    if |pieces| == 0 then "" else pieces[0] + "\n" + JoinLines(pieces[1..])
  }

  /** A failed foreign call, as the outer `except Exception` reports it. */
  function ProcessingError(message: string): string
  {
    ProcessingErrorPrefix + message
  }

  /** The result of a reader branch once its library has been imported:
      an `ImportError` raised while reading is caught by the branch's own
      handler and gives `missing`; any other exception reaches the outer
      handler. */
  function JoinedOrError(pieces: Parse<seq<string>>, missing: string): string
  {
    match pieces
    case Parsed(ps) => JoinLines(ps)
    case Raised(m, importError) => if importError then missing else ProcessingError(m)
  }

  /** What `extract_text_from_file` returns for a file that is present. */
  function ExtractFrom(libs: Libraries, file: UploadedFile): string
  {
    var ext := FileExtension(file.name);
    match Dispatch(ext)
    case PlainText =>
      (match file.decoded
       case Parsed(s) => s
       case Raised(m, _) => ProcessingError(m))
    case Pdf => if libs.hasPyPdf2 then JoinedOrError(file.pdfPages, PyPdf2Missing) else PyPdf2Missing
    case Word => if libs.hasDocx then JoinedOrError(file.docxParagraphs, DocxMissing) else DocxMissing
    case Unsupported => UnsupportedPrefix + ext
  }

  /** What `extract_text_from_file` returns: `None` exactly for a missing
      file, and a string for every file. */
  function ExtractedText(libs: Libraries, file: Option<UploadedFile>): (r: Option<string>)
    ensures r.None? <==> file.None?
  {
    match file
    case None => None
    case Some(f) => Some(ExtractFrom(libs, f))
  }

  /** `extract_text_from_file`, with the two accumulating loops of the
      PDF and Word branches. */
  method ExtractTextFromFile(libs: Libraries, file: Option<UploadedFile>) returns (r: Option<string>)
    ensures r == ExtractedText(libs, file)
  {
    if file.None? {
      return None;
    }
    var f := file.value;
    var ext := FileExtension(f.name);
    if ext in [".txt", ".md"] {
      match f.decoded
      case Parsed(s) => r := Some(s);
      case Raised(m, _) => r := Some(ProcessingErrorPrefix + m);
    } else if ext == ".pdf" {
      if !libs.hasPyPdf2 {
        return Some(PyPdf2Missing);
      }
      match f.pdfPages
      case Raised(m, importError) =>
        r := if importError then Some(PyPdf2Missing) else Some(ProcessingErrorPrefix + m);
      case Parsed(pages) =>
        var text := "";
        for i := 0 to |pages|
          invariant text == JoinLines(pages[..i])
        {
          JoinLinesSnoc(pages[..i], pages[i]);
          assert pages[..i + 1] == pages[..i] + [pages[i]];
          text := text + pages[i] + "\n";
        }
        assert pages[..|pages|] == pages;
        r := Some(text);
    } else if ext in [".doc", ".docx"] {
      if !libs.hasDocx {
        return Some(DocxMissing);
      }
      match f.docxParagraphs
      case Raised(m, importError) =>
        r := if importError then Some(DocxMissing) else Some(ProcessingErrorPrefix + m);
      case Parsed(paragraphs) =>
        var text := "";
        for i := 0 to |paragraphs|
          invariant text == JoinLines(paragraphs[..i])
        {
          JoinLinesSnoc(paragraphs[..i], paragraphs[i]);
          assert paragraphs[..i + 1] == paragraphs[..i] + [paragraphs[i]];
          text := text + paragraphs[i] + "\n";
        }
        assert paragraphs[..|paragraphs|] == paragraphs;
        r := Some(text);
    } else {
      r := Some(UnsupportedPrefix + ext);
    }
  }

  // ---------------------------------------------------------------------
  // The extension

  /** The extension is a dot followed by the lower-cased text after the
      last dot of the name: it starts with '.', holds no other '.', and
      holds no upper-case letter. */
  lemma {:induction false} FileExtensionShape(name: string)
    ensures var ext := FileExtension(name);
      var tail := Last(Split(name, '.'));
      |ext| >= 1 && ext[0] == '.' && '.' !in ext[1..] && IsLower(ext) &&
      ext[1..] == Lower(tail) && IsTextAfterLast(name, tail, '.')
  {
    var tail := Last(Split(name, '.'));
    SplitLastIsSuffix(name, '.');
    LowerIsLower(tail);
    var ext := FileExtension(name);
    assert ext[1..] == Lower(tail);
    forall i | 0 <= i < |ext| - 1 ensures ext[1..][i] != '.' {
      assert ext[1..][i] == LowerChar(tail[i]);
    }
  }

  /** A name without a dot yields '.' followed by the whole lower-cased name. */
  lemma {:induction false} FileExtensionDotless(name: string)
    requires '.' !in name
    ensures FileExtension(name) == "." + Lower(name)
  {
    NoSeparatorSplit(name, '.');
  }

  /** Lower-casing the name does not change its extension. */
  lemma {:induction false} FileExtensionIgnoresCase(name: string)
    ensures FileExtension(Lower(name)) == FileExtension(name)
  {
    var tail := Last(Split(name, '.'));
    var lowered := Split(Lower(name), '.');
    SplitLower(name, '.');
    assert Last(lowered) == Lower(tail);
    LowerIdempotent(tail);
    assert FileExtension(Lower(name)) == "." + Lower(Lower(tail));
  }

  /** Dispatch is case-insensitive: a file whose name is lower-cased takes
      the same branch and gives the same result. */
  lemma {:induction false} ExtractIgnoresCase(libs: Libraries, file: UploadedFile)
    ensures ExtractedText(libs, Some(file.(name := Lower(file.name)))) == ExtractedText(libs, Some(file))
  {
    FileExtensionIgnoresCase(file.name);
  }

  // ---------------------------------------------------------------------
  // The joined text of the PDF and Word branches

  /** Appending one more piece to the accumulated text, as the loop does. */
  lemma {:induction false} JoinLinesSnoc(pieces: seq<string>, piece: string)
    ensures JoinLines(pieces + [piece]) == JoinLines(pieces) + piece + "\n"
    decreases |pieces|
  {
    if |pieces| > 0 {
      assert (pieces + [piece])[1..] == pieces[1..] + [piece];
      JoinLinesSnoc(pieces[1..], piece);
    }
  }

  function TotalLength(pieces: seq<string>): nat
    decreases |pieces|
  {
    if |pieces| == 0 then 0 else |pieces[0]| + TotalLength(pieces[1..])
  }

  /** The joined text is as long as the pieces together plus one newline
      per piece; with no pieces it is empty. */
  lemma {:induction false} JoinLinesLength(pieces: seq<string>)
    ensures |JoinLines(pieces)| == TotalLength(pieces) + |pieces|
    ensures |pieces| == 0 ==> JoinLines(pieces) == ""
    decreases |pieces|
  {
    if |pieces| > 0 {
      JoinLinesLength(pieces[1..]);
    }
  }

  /** Splitting the joined text at its newlines gives back the pieces, in
      order, followed by the empty text after the final newline. */
  lemma {:induction false} JoinLinesSplit(pieces: seq<string>)
    requires forall i :: 0 <= i < |pieces| ==> '\n' !in pieces[i]
    ensures Split(JoinLines(pieces), '\n') == pieces + [""]
    decreases |pieces|
  {
    if |pieces| > 0 {
      JoinLinesSplit(pieces[1..]);
      SplitAfterSeparator(pieces[0], '\n', JoinLines(pieces[1..]));
      assert pieces[0] + "\n" + JoinLines(pieces[1..]) == pieces[0] + ['\n'] + JoinLines(pieces[1..]);
      assert [pieces[0]] + (pieces[1..] + [""]) == pieces + [""];
    }
  }

  // ---------------------------------------------------------------------
  // The branches of the extractor

  /** `.txt` and `.md` files yield exactly the decoded text, or the
      decoder's error: this branch has no handler of its own, so even an
      `ImportError` reaches the outer one. */
  lemma {:induction false} ExtractPlainText(libs: Libraries, file: UploadedFile)
    requires FileExtension(file.name) in [".txt", ".md"]
    ensures file.decoded.Parsed? ==> ExtractedText(libs, Some(file)) == Some(file.decoded.value)
    ensures file.decoded.Raised? ==>
      ExtractedText(libs, Some(file)) == Some(ProcessingErrorPrefix + file.decoded.message)
  {
  }

  /** `.pdf` files yield the pages joined line by line, a fixed message
      when PyPDF2 is missing or reading raises an `ImportError`, or the
      parser's error. */
  lemma {:induction false} ExtractPdf(libs: Libraries, file: UploadedFile)
    requires FileExtension(file.name) == ".pdf"
    ensures !libs.hasPyPdf2 ==> ExtractedText(libs, Some(file)) == Some(PyPdf2Missing)
    ensures libs.hasPyPdf2 && file.pdfPages.Parsed? ==>
      ExtractedText(libs, Some(file)) == Some(JoinLines(file.pdfPages.value))
    ensures libs.hasPyPdf2 && file.pdfPages.Raised? && file.pdfPages.importError ==>
      ExtractedText(libs, Some(file)) == Some(PyPdf2Missing)
    ensures libs.hasPyPdf2 && file.pdfPages.Raised? && !file.pdfPages.importError ==>
      ExtractedText(libs, Some(file)) == Some(ProcessingErrorPrefix + file.pdfPages.message)
  {
  }

  /** `.doc` and `.docx` files yield the paragraphs joined line by line, a
      fixed message when python-docx is missing or reading raises an
      `ImportError`, or the parser's error. */
  lemma {:induction false} ExtractWord(libs: Libraries, file: UploadedFile)
    requires FileExtension(file.name) in [".doc", ".docx"]
    ensures !libs.hasDocx ==> ExtractedText(libs, Some(file)) == Some(DocxMissing)
    ensures libs.hasDocx && file.docxParagraphs.Parsed? ==>
      ExtractedText(libs, Some(file)) == Some(JoinLines(file.docxParagraphs.value))
    ensures libs.hasDocx && file.docxParagraphs.Raised? && file.docxParagraphs.importError ==>
      ExtractedText(libs, Some(file)) == Some(DocxMissing)
    ensures libs.hasDocx && file.docxParagraphs.Raised? && !file.docxParagraphs.importError ==>
      ExtractedText(libs, Some(file)) == Some(ProcessingErrorPrefix + file.docxParagraphs.message)
  {
  }

  /** Every other extension yields the fixed message naming it, whatever
      the file holds and whichever libraries are installed. */
  lemma {:induction false} ExtractUnsupported(libs: Libraries, file: UploadedFile)
    requires FileExtension(file.name) !in [".txt", ".md", ".pdf", ".doc", ".docx"]
    ensures ExtractedText(libs, Some(file)) == Some(UnsupportedPrefix + FileExtension(file.name))
  {
  }

  /** The extension of `base.suffix` for dot-free parts. */
  lemma {:induction false} ExtensionExample(base: string, suffix: string)
    requires '.' !in base && '.' !in suffix
    ensures FileExtension(base + "." + suffix) == "." + Lower(suffix)
  {
    SplitAfterSeparator(base, '.', suffix);
    NoSeparatorSplit(suffix, '.');
    assert base + "." + suffix == base + ['.'] + suffix;
  }

  /** A mixed-case `.TXT` name takes the plain-text branch. */
  lemma UpperTxtExample()
    ensures Dispatch(FileExtension("A.TXT")) == PlainText
  {
    assert "A.TXT" == "A" + "." + "TXT";
    ExtensionExample("A", "TXT");
    assert Lower("TXT") == "txt";
    assert FileExtension("A.TXT") == ".txt";
  }

  /** A mixed-case `.Md` name takes the plain-text branch. */
  lemma MixedMdExample()
    ensures Dispatch(FileExtension("a.Md")) == PlainText
  {
    assert "a.Md" == "a" + "." + "Md";
    ExtensionExample("a", "Md");
    assert Lower("Md") == "md";
    assert FileExtension("a.Md") == ".md";
  }

  /** An upper-case `.PDF` name takes the PDF branch. */
  lemma UpperPdfExample()
    ensures Dispatch(FileExtension("x.PDF")) == Pdf
  {
    assert "x.PDF" == "x" + "." + "PDF";
    ExtensionExample("x", "PDF");
    assert Lower("PDF") == "pdf";
    assert FileExtension("x.PDF") == ".pdf";
  }

  /** A mixed-case `.DocX` name takes the Word branch. */
  lemma MixedDocxExample()
    ensures Dispatch(FileExtension("y.DocX")) == Word
  {
    assert "y.DocX" == "y" + "." + "DocX";
    ExtensionExample("y", "DocX");
    assert Lower("DocX") == "docx";
    assert FileExtension("y.DocX") == ".docx";
  }

  lemma ReadmeLower()
    ensures Lower("README") == "readme"
  {
    var l := Lower("README");
    assert l[0] == 'r' && l[1] == 'e' && l[2] == 'a' && l[3] == 'd' && l[4] == 'm' && l[5] == 'e';
  }

  /** A dotless name is its own, lower-cased, extension. */
  lemma DotlessExample()
    ensures FileExtension("README") == ".readme"
  {
    var name := "README";
    assert '.' !in name by {
      assert forall i :: 0 <= i < |name| ==> name[i] != '.';
    }
    FileExtensionDotless(name);
    assert Lower(name) == "readme" by { ReadmeLower(); }
  }

}
