/**
 * Text extraction for an uploaded résumé: the file extension taken from the
 * file name, the closed set of accepted formats, and the three extractors
 * (paragraph join for docx, the generic decoder for doc, page concatenation
 * for pdf). The document decoders themselves are opaque functions that may fail.
 */
module Extraction {
  import opened Wrappers
  import opened Strings

  /** The accepted formats: docx, legacy doc, pdf. */
  datatype Format = Docx | Doc | Pdf

  /** The opaque decoders: python-docx's paragraph texts, textract's output
      decoded as UTF-8, and PyPDF2's per-page texts. `None` stands for the
      exception any of them may raise. */
  datatype Decoders = Decoders(
    docxParagraphs: seq<bv8> -> Option<seq<string>>,
    textractProcess: seq<bv8> -> Option<string>,
    pdfPageTexts: seq<bv8> -> Option<seq<string>>)

  /** `file.filename.split('.')[-1].lower()`: the last dot-separated piece of the
      name, lower-cased. It holds no dot and is no longer than the name. */
  function FileExtension(filename: string): (ext: string)
    ensures '.' !in ext
    ensures |ext| <= |filename|
  {
    LastPieceFits(filename, '.');
    Lower(Last(Split(filename, '.')))
  }

  /** The spelling of each format as an extension. */
  function FormatName(f: Format): string
  {
    match f
    case Docx => "docx"
    case Doc => "doc"
    case Pdf => "pdf"
  }

  /** The dispatch on the extension: exactly "docx", "doc" and "pdf" are accepted,
      each to its own format; every other extension is refused. */
  function ParseFormat(ext: string): (r: Option<Format>)
    ensures r == Some(Docx) <==> ext == "docx"
    ensures r == Some(Doc) <==> ext == "doc"
    ensures r == Some(Pdf) <==> ext == "pdf"
    ensures r == None <==> ext != "docx" && ext != "doc" && ext != "pdf"
  {
    if ext == "docx" then Some(Docx)
    else if ext == "doc" then Some(Doc)
    else if ext == "pdf" then Some(Pdf)
    else None
  }

  /** A name that holds a dot has its extension after the LAST dot. */
  lemma {:induction false} ExtensionOfDotted(prefix: string, suffix: string)
    requires '.' !in suffix
    ensures FileExtension(prefix + "." + suffix) == Lower(suffix)
  {
    SplitConcat(prefix, suffix, '.');
    SplitWithoutSeparator(suffix, '.');
  }

  /** A name without a dot is its own extension (lower-cased). */
  lemma {:induction false} ExtensionOfDotless(filename: string)
    requires '.' !in filename
    ensures FileExtension(filename) == Lower(filename)
  {
    SplitWithoutSeparator(filename, '.');
  }

  /** Every name with a dot splits at its last dot: the two lemmas above cover every name. */
  lemma {:induction false} LastDotExists(filename: string)
    requires '.' in filename
    ensures exists prefix, suffix ::
      filename == prefix + "." + suffix && '.' !in suffix
  {
    var pieces := Split(filename, '.');
    SplitJoin(filename, '.');
    assert |pieces| >= 2;
    JoinLast(pieces, ['.']);
    var prefix := Join(pieces[..|pieces| - 1], ['.']);
    assert filename == prefix + "." + Last(pieces);
  }

  /** The extension, and so the dispatch, does not depend on the case of the name. */
  lemma {:induction false} ExtensionCaseInsensitive(filename: string)
    ensures FileExtension(Lower(filename)) == FileExtension(filename)
  {
    if '.' in filename {
      LastDotExists(filename);
      var prefix, suffix :| filename == prefix + "." + suffix && '.' !in suffix;
      LowerConcat(prefix + ".", suffix);
      LowerConcat(prefix, ".");
      assert Lower(".") == ".";
      assert '.' !in Lower(suffix) by {
        forall i | 0 <= i < |suffix| ensures Lower(suffix)[i] != '.' {
          assert suffix[i] != '.';
        }
      }
      ExtensionOfDotted(prefix, suffix);
      ExtensionOfDotted(Lower(prefix), Lower(suffix));
      LowerIdempotent(suffix);
    } else {
      assert '.' !in Lower(filename) by {
        forall i | 0 <= i < |filename| ensures Lower(filename)[i] != '.' {
          assert filename[i] != '.';
        }
      }
      ExtensionOfDotless(filename);
      ExtensionOfDotless(Lower(filename));
      LowerIdempotent(filename);
    }
  }

  /** Each format's name is parsed back to that format, and only its name is. */
  lemma FormatNameRoundTrip(f: Format, ext: string)
    ensures ParseFormat(FormatName(f)) == Some(f)
    ensures ParseFormat(ext) == Some(f) ==> ext == FormatName(f)
  {
  }

  /** `processar_docx`: the paragraph texts, in order, joined by a single newline.
      An empty document gives the empty text; otherwise the text ends with the last
      paragraph and has one newline between each two paragraphs. */
  function ProcessarDocx(paragraphs: seq<string>): (texto: string)
    ensures |paragraphs| == 0 ==> texto == ""
    ensures |paragraphs| >= 1 ==> |texto| == SumLens(paragraphs) + |paragraphs| - 1
  {
    JoinLength(paragraphs, "\n");
    Join(paragraphs, "\n")
  }

  /** The docx text ends with the last paragraph, after a newline when there are
      several: no newline is added after the last paragraph. */
  lemma DocxEndsWithLastParagraph(paragraphs: seq<string>)
    requires |paragraphs| >= 1
    ensures |paragraphs| == 1 ==> ProcessarDocx(paragraphs) == paragraphs[0]
    ensures |paragraphs| >= 2 ==>
      ProcessarDocx(paragraphs) == ProcessarDocx(paragraphs[..|paragraphs| - 1]) + "\n" + Last(paragraphs)
  {
    if |paragraphs| >= 2 {
      JoinLast(paragraphs, "\n");
    }
  }

  /** Splitting the docx text at newlines gives back the paragraphs, when there is
      at least one and none holds a newline itself. */
  lemma DocxParagraphsRoundTrip(paragraphs: seq<string>)
    requires |paragraphs| >= 1
    requires forall k :: 0 <= k < |paragraphs| ==> '\n' !in paragraphs[k]
    ensures Split(ProcessarDocx(paragraphs), '\n') == paragraphs
  {
    JoinSplit(paragraphs, '\n');
  }

  /** `processar_pdf`: the page texts appended in order, with no separator. */
  method ProcessarPdf(pageTexts: seq<string>) returns (textoPdf: string)
    ensures textoPdf == Concat(pageTexts)
  {
    textoPdf := "";
    for i := 0 to |pageTexts|
      invariant textoPdf == Concat(pageTexts[..i])
    {
      ConcatAppend(pageTexts[..i], [pageTexts[i]]);
      assert pageTexts[..i + 1] == pageTexts[..i] + [pageTexts[i]];
      assert Concat([pageTexts[i]]) == pageTexts[i] + Concat([]);
      textoPdf := textoPdf + pageTexts[i];
    }
    assert pageTexts[..|pageTexts|] == pageTexts;
  }

  /** The pdf text is exactly as long as the page texts together: nothing is
      inserted at page boundaries, and the text of the pages before `k` ends
      where page `k` begins. */
  lemma {:induction false} PdfTextLayout(pageTexts: seq<string>, k: nat)
    requires k <= |pageTexts|
    ensures |Concat(pageTexts)| == SumLens(pageTexts)
    ensures Concat(pageTexts) == Concat(pageTexts[..k]) + Concat(pageTexts[k..])
  {
    ConcatLength(pageTexts);
    ConcatAppend(pageTexts[..k], pageTexts[k..]);
    assert pageTexts[..k] + pageTexts[k..] == pageTexts;
  }

  /** The three extractors, one per format; `None` exactly when that format's decoder fails. */
  function Extract(format: Format, content: seq<bv8>, decoders: Decoders): (r: Option<string>)
    ensures r.None? <==>
      (format == Docx && decoders.docxParagraphs(content).None?) ||
      (format == Doc && decoders.textractProcess(content).None?) ||
      (format == Pdf && decoders.pdfPageTexts(content).None?)
  {
    match format
    case Docx =>
      (match decoders.docxParagraphs(content)
       case None => None
       case Some(paragraphs) => Some(ProcessarDocx(paragraphs)))
    case Doc => decoders.textractProcess(content)
    case Pdf =>
      (match decoders.pdfPageTexts(content)
       case None => None
       case Some(pages) => Some(Concat(pages)))
  }

  /** Each format is routed to its own decoder, and only that decoder is consulted. */
  lemma ExtractRouting(content: seq<bv8>, d1: Decoders, d2: Decoders)
    ensures d1.docxParagraphs(content) == d2.docxParagraphs(content) ==>
      Extract(Docx, content, d1) == Extract(Docx, content, d2)
    ensures d1.textractProcess(content) == d2.textractProcess(content) ==>
      Extract(Doc, content, d1) == Extract(Doc, content, d2)
    ensures d1.pdfPageTexts(content) == d2.pdfPageTexts(content) ==>
      Extract(Pdf, content, d1) == Extract(Pdf, content, d2)
  {
  }
}
