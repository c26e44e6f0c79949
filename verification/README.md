# CurriMax résumé upload, verified model

CurriMax is a small web application. A user uploads a résumé (docx, doc or pdf)
together with three context fields: `tipo_vaga` (job type), `profissao` (profession)
and `descricao_empresa` (company description). The application extracts the
résumé's text and asks a generative model twice: once for an evaluation and once for
improvement suggestions. It stores one record with the inputs and the two answers
converted from markdown to HTML, and redirects to a detail view of that record.

This project models the decision logic of that pipeline in Dafny. The model covers
these parts:

- `Strings` (`strings.dfy`): the Python string operations the handler uses. These are
  `str.split` on one character, `str.join`, the `+=` concatenation of page texts and
  ASCII `str.lower`. Each comes with its algebra: split/join round trips, lengths and
  distribution over concatenation.
- `Extraction` (`extraction.dfy`): the file extension (the text after the last `.`,
  lower-cased), and the closed dispatch to `docx`, `doc` or `pdf`. It also holds the
  three extractors. `processar_docx` joins paragraph texts with `'\n'`.
  `processar_pdf` is a loop that appends page texts with no separator. The generic
  decoder is used for `doc`.
- `Generation` (`generation.dfy`): the two model calls. Both send the same
  user prompt of four labelled fields. The two system instructions are constants that still hold
  the literal placeholders `{tipo_vaga}`, `{profissao}` and `{descricao_empresa}`:
  they are plain string literals, not f-strings, so nothing is substituted into them.
- `Handlers` (`handlers.dfy`): the upload handler and the detail lookup.
  `UploadOutcome` is the upload decision written as a function of the request and
  of the opaque collaborators. `AvaliacaoStore` is the record store: a class that
  holds a map from id to record. Its `UploadCurriculo` method performs the upload
  step by step and is proved to agree with `UploadOutcome`.

The document decoders, the generative model and `markdown.markdown` are parameters:
a `Collaborators` value that holds functions. A decoder or a model call may fail,
which the model writes as `None`.

Three behaviours of the code shape the model:

- The code catches no exception from a decoder or a model call. Such a failure
  therefore reaches the framework as a 500 (`InternalServerError`).
- The code accepts empty context fields. It only requires the three form keys to be
  present. A missing key becomes the framework's 400 (`MissingFormKey`), and only
  after the file has been extracted.
- A file name without a dot is its own extension, so a file named just `PDF` or
  `docx` is accepted.

## Model

| member | source | states |
|---|---|---|
| `Strings.Split` | main.py:113 | `split('.')` always gives at least one piece, and no piece holds the separator |
| `Strings.SplitWithoutSeparator` | main.py:113 | a string without the separator splits into just itself |
| `Strings.SplitConcat` | main.py:113 | the pieces of `a + sep + b` are the pieces of `a` followed by those of `b` |
| `Strings.SplitJoin` | main.py:113 | joining the pieces of a split with the separator gives back the original string |
| `Strings.LastPieceFits` | main.py:113 | the last piece of a split is no longer than the string |
| `Strings.Lower` | main.py:113 | `lower()` keeps the length, maps each character by itself, and leaves no ASCII capital |
| `Strings.LowerConcat` | main.py:113 | lower-casing distributes over concatenation |
| `Strings.LowerIdempotent` | main.py:113 | lower-casing twice equals lower-casing once |
| `Strings.Join` | main.py:48 | `sep.join` begins with its first piece; characterised further by `JoinSplit`, `JoinLast` and `JoinLength` |
| `Strings.JoinSplit` | main.py:48 | splitting a `'\n'`-join recovers the pieces when there is at least one piece and none holds a newline |
| `Strings.JoinLast` | main.py:48 | a join of two or more pieces is the join of all but the last, the separator, then the last piece |
| `Strings.JoinLength` | main.py:48 | a join is as long as its pieces plus one separator between each two |
| `Strings.Concat` | main.py:40-43 | the `+=` result begins with the first page text, and empty page texts give `""`; characterised further by `ConcatAppend`, `ConcatLength` and `ConcatIsJoinWithEmpty` |
| `Strings.ConcatAppend` | main.py:40-43 | concatenating two lists of texts is concatenating their concatenations |
| `Strings.ConcatLength` | main.py:40-43 | a concatenation is exactly as long as its pieces together |
| `Strings.ConcatIsJoinWithEmpty` | main.py:40-43 | page concatenation is the join with the empty separator |
| `Extraction.FileExtension` | main.py:113 | the extension holds no dot and is no longer than the file name |
| `Extraction.ExtensionOfDotted` | main.py:113 | for `prefix + "." + suffix` with no dot in `suffix`, the extension is the lower-cased `suffix` (the text after the last dot) |
| `Extraction.ExtensionOfDotless` | main.py:113 | a name with no dot has the lower-cased name as its extension |
| `Extraction.LastDotExists` | main.py:113 | every name with a dot splits at a last dot, so the two lemmas above cover every name |
| `Extraction.ExtensionCaseInsensitive` | main.py:113 | the extension of the lower-cased name equals the extension of the name |
| `Extraction.ParseFormat` | main.py:115-122 | exactly `docx`, `doc` and `pdf` are accepted, each to its own format; every other extension is refused |
| `Extraction.FormatNameRoundTrip` | main.py:115-122 | each format's name parses back to that format, and only that name does |
| `Extraction.ProcessarDocx` | main.py:46-48 | no paragraphs give `""`; otherwise the text is as long as the paragraphs plus one newline between each two |
| `Extraction.DocxEndsWithLastParagraph` | main.py:48 | the docx text ends with the last paragraph after a single `'\n'`, with no trailing newline added |
| `Extraction.DocxParagraphsRoundTrip` | main.py:48 | splitting the docx text at `'\n'` gives back the paragraphs when none holds a newline |
| `Extraction.ProcessarPdf` | main.py:38-43 | the loop's result is the in-order concatenation of the page texts |
| `Extraction.PdfTextLayout` | main.py:40-43 | the pdf text is as long as the page texts together, and it is the text of the first k pages followed by that of the rest |
| `Extraction.Extract` | main.py:115-120 | the extraction of a supported file fails exactly when the decoder of its format fails (the docx reader, textract, or the pdf reader) |
| `Extraction.ExtractRouting` | main.py:115-120 | each format's text depends only on its own decoder |
| `Generation.UserPrompt` | main.py:67 | the prompt opens with `Currículo: ` and the résumé text, and adds exactly 61 characters of labels and line breaks to the four inputs; the same f-string is sent at main.py:89 |
| `Generation.SugerirMelhorias` | main.py:76-92 | the suggestions call sends the evaluation's request unchanged except that the improver's instruction replaces the evaluator's |
| `Generation.AvaliarCurriculo` | main.py:55-92 | the generation step succeeds exactly when both calls succeed, giving the evaluator's text and then the improver's; both requests carry `UserPrompt` of the same four inputs |
| `Generation.RequestsDifferOnlyInInstruction` | main.py:57-92 | both requests use model `gemini-1.5-flash` and identical user prompts; their system instructions are the two input-independent constants, and these differ |
| `Generation.InstructionsHoldPlaceholders` | main.py:59-62 | both system instructions contain the literal texts `{tipo_vaga}`, `{profissao}` and `{descricao_empresa}` (lines 59-62 and 80-84) |
| `Generation.UserPromptLines` | main.py:67 | when the three context fields hold no newline, the prompt's lines are the lines of `Currículo: …`, then `Tipo de Vaga: …`, `Profissão: …`, `Descrição da Empresa: …` |
| `Generation.UserPromptInjective` | main.py:89 | equal prompts come from equal résumé texts and context fields, when the context fields hold no newline |
| `Handlers.ReadContext` | main.py:125-127 | the context is read exactly when all three keys are present, and the values are taken unchanged; otherwise the first missing key in the order `tipo_vaga`, `profissao`, `descricao_empresa` is reported |
| `Handlers.UploadOutcome` | main.py:101-148 | a rejection always carries an error status (400 or above); an accepted upload's record is filed under the given id with the uploaded file's name; characterised further by `ValidationOrder`, `AcceptedExactly`, `AcceptedRecord` and `RejectionStatus` |
| `Handlers.ValidationOrder` | main.py:103-122 | "Nenhum arquivo enviado." (400) exactly when the `file` part is missing; "Nenhum arquivo selecionado." (400) exactly when it is present with an empty name; "Formato de arquivo não suportado." (400) exactly when it is named but its format is not supported |
| `Handlers.ValidationPrecedesExtraction` | main.py:103-122 | a request that fails validation gets a 400 that no decoder, model call or markdown conversion can change |
| `Handlers.DotlessNamesAccepted` | main.py:113-120 | files named just `PDF` or `docx` are accepted as pdf and docx |
| `Handlers.LastDotDecides` | main.py:113-122 | `cv.final.DOC` is a doc file; `cv.pdf.exe` and `cv.` are refused |
| `Handlers.AcceptedExactly` | main.py:111-145 | a record is produced exactly when the file is present, named and supported, its decoder succeeds, the three form keys are present, and both model calls succeed |
| `Handlers.AcceptedRecord` | main.py:133-143 | the new record has the given id, the file name, the extracted text and the context fields unchanged, and the markdown conversion of both model answers to the same user prompt |
| `Handlers.StoredTextByFormat` | main.py:115-120 | the stored text is the `'\n'`-join of the docx paragraphs, the generic decoder's text for doc, or the concatenated pdf pages, as long as the pages together |
| `Handlers.RejectionStatus` | main.py:103-130 | every rejection is a 400 or a 500; it is a 500 exactly when the decoder fails or a model call fails |
| `Handlers.AvaliacaoStore.constructor` | main.py:28-29 | a store over a fresh database starts empty |
| `Handlers.AvaliacaoStore.Add` | main.py:144-145 | adding a record under a new id keeps every earlier record and adds that one key |
| `Handlers.AvaliacaoStore.Get` | main.py:153 | the lookup finds a record exactly when the id is stored, and gives that record |
| `Handlers.AvaliacaoStore.AvaliacaoDetalhes` | main.py:151-157 | a stored id gives its detail page (200); an unknown id gives "Avaliação não encontrada" with 404 |
| `Handlers.AvaliacaoStore.UploadCurriculo` | main.py:101-148 | a rejected upload answers as `UploadOutcome` says and leaves the store unchanged; an accepted one adds exactly its record under the fresh id and redirects to that id |
| `Handlers.UploadThenView` | main.py:133-157 | after a successful upload, the id it redirects to shows the new record; after a failed one, the store is unchanged and that id gives 404 |

## Left out

- Web framework plumbing: routing, `jsonify`, `url_for`, `redirect` and `render_template`. Responses are a datatype. A redirect carries the record id rather than the URL built from it.
- The listing route `index` (main.py:95-98): it is a plain query with no specified order.
- Document decoding by python-docx, PyPDF2 and textract, including textract's UTF-8 decoding. These are opaque functions that may fail. A failure of one pdf page's extraction counts as a failure of the whole pdf reader.
- The Gemini SDK and its setup, including the `API_KEY` read from the environment at start-up (main.py:33). The model is an opaque function from a request to a text or a failure.
- `markdown.markdown`: an opaque total function.
- SQLAlchemy and SQLite: an in-memory map replaces them. The declared column lengths are not modelled because SQLite does not enforce them. The constructor models a fresh database: `db.create_all()` only creates a missing table, so an existing `db1.sqlite3` keeps its rows across restarts.
- `uuid.uuid4()`: the fresh id is a parameter with the precondition that it is not already stored. A uuid collision, which would fail the commit, is not modelled.
- Strings.Lower: maps only ASCII capitals, one character at a time. Python's `str.lower` also maps non-ASCII capitals, and it depends on context: a capital sigma at the end of a word becomes `ς`, elsewhere `σ`. No non-ASCII character lower-cases to one of the letters of `docx`, `doc` or `pdf`, so acceptance and dispatch are unaffected.
- Strings.LowerConcat: holds for the model's `Lower` only. For Python's `lower`, `"ΑΣ".lower()` is `"ας"` while `"Α".lower() + "Σ".lower()` is `"ασ"`.
- Extraction.ExtensionCaseInsensitive: holds for the model's `Lower` only. For the name `"xΣ.Σ"`, main.py:113 gives `"σ"`, while the same expression on the lower-cased name gives `"ς"`. In Python only the dispatch is case-insensitive, because no non-ASCII character lower-cases to a letter of `docx`, `doc` or `pdf`.
- Extraction.FileExtension: the bound "no longer than the file name" holds for the model's `Lower` only. Python's `'İ'.lower()` is two code points, so for a name holding U+0130 main.py:113 can yield a longer extension.
- Exceptions: every uncaught exception is one `InternalServerError`. The framework's error pages are not modelled. `MissingFormKey` keeps the name of the missing form key only inside the model: the app runs with `debug=False` (main.py:160), and the framework's 400 page does not name the key.
- `if file:` (main.py:111): a file part always has a name here, and an empty name was already refused, so this test always passes. The handler's implicit fall-through (a `None` return) cannot happen and is not modelled.
- A repeated form or file key: `request.files` and `request.form` are maps with one value per key. The framework gives the first value of a repeated key.
- Concurrent requests: the store is updated by one request at a time.
