/**
 * The two request handlers around the record store: `upload_curriculo`, which
 * validates the upload, extracts the text, calls the model twice and adds one
 * record, and `avaliacao_detalhes`, which looks a record up by its id.
 *
 * `UploadOutcome` states, as a function of the request and the collaborators, what
 * the upload handler decides; the store's `UploadCurriculo` method performs it step
 * by step and is proved to agree with it.
 */
module Handlers {
  import opened Wrappers
  import opened Strings
  import opened Extraction
  import opened Generation

  /** One uploaded file part: its client-side name and its bytes. */
  datatype FilePart = FilePart(filename: string, content: seq<bv8>)

  /** The parts of a multipart POST: `request.files` and `request.form`. */
  datatype Request = Request(files: map<string, FilePart>, form: map<string, string>)

  /** One stored evaluation (the table `AvaliacaoCurriculo`). */
  datatype Record = Record(
    id: string,
    arquivoNome: string,
    arquivoConteudo: string,
    tipoVaga: string,
    profissao: string,
    descricaoEmpresa: string,
    avaliacao: string,
    melhorias: string)

  /** What a handler answers. */
  datatype Response =
    | JsonError(erro: string, status: int)    // `jsonify({"erro": ...}), status`
    | MissingFormKey(key: string)              // a form field absent: the framework's 400
    | InternalServerError                      // an exception nothing catches: 500
    | RedirectToDetail(avaliacaoId: string)    // redirect to the detail view of a record
    | DetailPage(record: Record)               // the rendered detail view
    | PlainText(body: string, status: int)     // a bare text body with its status

  /** The HTTP status of each response. */
  function Status(r: Response): int
  {
    match r
    case JsonError(_, status) => status
    case MissingFormKey(_) => 400
    case InternalServerError => 500
    case RedirectToDetail(_) => 302
    case DetailPage(_) => 200
    case PlainText(_, status) => status
  }

  /** Everything the handler depends on but cannot see: the document decoders, the
      generative model and `markdown.markdown`. */
  datatype Collaborators = Collaborators(
    decoders: Decoders,
    generate: GenRequest -> Option<string>,
    markdown: string -> string)

  const NenhumArquivoEnviado: string := "Nenhum arquivo enviado."
  const NenhumArquivoSelecionado: string := "Nenhum arquivo selecionado."
  const FormatoNaoSuportado: string := "Formato de arquivo não suportado."
  const AvaliacaoNaoEncontrada: string := "Avaliação não encontrada"

  /** The three context fields, read in this order; the first one missing is reported. */
  datatype Context = MissingKey(key: string) | Context(tipoVaga: string, profissao: string, descricaoEmpresa: string)

  function ReadContext(form: map<string, string>): (c: Context)
    ensures c.Context? <==> "tipo_vaga" in form && "profissao" in form && "descricao_empresa" in form
    ensures c.Context? ==>
      c.tipoVaga == form["tipo_vaga"] && c.profissao == form["profissao"] &&
      c.descricaoEmpresa == form["descricao_empresa"]
    ensures c.MissingKey? ==> c.key !in form
    ensures "tipo_vaga" !in form ==> c == MissingKey("tipo_vaga")
    ensures "tipo_vaga" in form && "profissao" !in form ==> c == MissingKey("profissao")
    ensures "tipo_vaga" in form && "profissao" in form && "descricao_empresa" !in form ==>
      c == MissingKey("descricao_empresa")
  {
    if "tipo_vaga" !in form then MissingKey("tipo_vaga")
    else if "profissao" !in form then MissingKey("profissao")
    else if "descricao_empresa" !in form then MissingKey("descricao_empresa")
    else Context(form["tipo_vaga"], form["profissao"], form["descricao_empresa"])
  }

  /** What an upload comes to: a response with nothing stored, or one record to store. */
  datatype Outcome = Rejected(response: Response) | Accepted(record: Record)

  /** The decision of `upload_curriculo`, with `id` the identifier a new record gets.
      A rejection is always an error status; an accepted record is filed under `id`
      with the uploaded file's name. */
  function UploadOutcome(req: Request, env: Collaborators, id: string): (o: Outcome)
    ensures o.Rejected? ==> Status(o.response) >= 400
    ensures o.Accepted? ==> "file" in req.files && o.record.id == id && o.record.arquivoNome == req.files["file"].filename
  {
    if "file" !in req.files then Rejected(JsonError(NenhumArquivoEnviado, 400))
    else
      var file := req.files["file"];
      if file.filename == "" then Rejected(JsonError(NenhumArquivoSelecionado, 400))
      else
        match ParseFormat(FileExtension(file.filename))
        case None => Rejected(JsonError(FormatoNaoSuportado, 400))
        case Some(format) =>
          match Extract(format, file.content, env.decoders)
          case None => Rejected(InternalServerError)
          case Some(texto) =>
            match ReadContext(req.form)
            case MissingKey(key) => Rejected(MissingFormKey(key))
            case Context(tipoVaga, profissao, descricaoEmpresa) =>
              match AvaliarCurriculo(texto, tipoVaga, profissao, descricaoEmpresa, env.generate)
              case None => Rejected(InternalServerError)
              case Some((avaliacao, melhorias)) =>
                Accepted(Record(id, file.filename, texto, tipoVaga, profissao, descricaoEmpresa,
                                env.markdown(avaliacao), env.markdown(melhorias)))
  }

  /** The format an accepted file name is dispatched to. */
  function FormatOf(req: Request): Option<Format>
  {
    if "file" in req.files then ParseFormat(FileExtension(req.files["file"].filename)) else None
  }

  /** The three validation checks run in a fixed order and the first failure wins:
      each message is answered with 400 exactly in its own case. */
  lemma ValidationOrder(req: Request, env: Collaborators, id: string)
    ensures UploadOutcome(req, env, id) == Rejected(JsonError(NenhumArquivoEnviado, 400))
        <==> "file" !in req.files
    ensures UploadOutcome(req, env, id) == Rejected(JsonError(NenhumArquivoSelecionado, 400))
        <==> "file" in req.files && req.files["file"].filename == ""
    ensures UploadOutcome(req, env, id) == Rejected(JsonError(FormatoNaoSuportado, 400))
        <==> "file" in req.files && req.files["file"].filename != "" && FormatOf(req) == None
  {
  }

  /** A request turned away by validation is turned away before any decoder, model
      call or markdown conversion: its answer does not depend on them at all. */
  lemma ValidationPrecedesExtraction(req: Request, env1: Collaborators, env2: Collaborators, id: string)
    requires "file" !in req.files || req.files["file"].filename == "" || FormatOf(req) == None
    ensures UploadOutcome(req, env1, id) == UploadOutcome(req, env2, id)
    ensures UploadOutcome(req, env1, id).Rejected?
    ensures Status(UploadOutcome(req, env1, id).response) == 400
  {
  }

  /** A file name with no dot is its own extension: files named just "PDF" or
      "docx" are accepted. */
  lemma DotlessNamesAccepted()
    ensures ParseFormat(FileExtension("PDF")) == Some(Pdf)
    ensures ParseFormat(FileExtension("docx")) == Some(Docx)
  {
    ExtensionOfDotless("PDF");
    assert Lower("PDF") == "pdf";
    ExtensionOfDotless("docx");
    assert Lower("docx") == "docx";
  }

  /** Only what follows the last dot decides: "cv.final.DOC" is a doc file, while
      "cv.pdf.exe" and "cv." are refused. */
  lemma LastDotDecides()
    ensures ParseFormat(FileExtension("cv.final.DOC")) == Some(Doc)
    ensures ParseFormat(FileExtension("cv.pdf.exe")) == None
    ensures ParseFormat(FileExtension("cv.")) == None
  {
    ExtensionOfDotted("cv.final", "DOC");
    assert "cv.final.DOC" == "cv.final" + "." + "DOC";
    assert Lower("DOC") == "doc";
    ExtensionOfDotted("cv.pdf", "exe");
    assert "cv.pdf.exe" == "cv.pdf" + "." + "exe";
    assert Lower("exe") == "exe";
    ExtensionOfDotted("cv", "");
    assert "cv." == "cv" + "." + "";
  }

  /** A record is produced exactly when every step succeeds: the file is present,
      named and of a supported format, its decoder succeeds, the three form fields
      are present and both model calls succeed. */
  lemma AcceptedExactly(req: Request, env: Collaborators, id: string)
    ensures UploadOutcome(req, env, id).Accepted? <==>
      "file" in req.files && req.files["file"].filename != "" && FormatOf(req).Some? &&
      Extract(FormatOf(req).value, req.files["file"].content, env.decoders).Some? &&
      ReadContext(req.form).Context? &&
      AvaliarCurriculo(Extract(FormatOf(req).value, req.files["file"].content, env.decoders).value,
                       req.form["tipo_vaga"], req.form["profissao"], req.form["descricao_empresa"],
                       env.generate).Some?
  {
  }

  /** The record an accepted upload stores: the given id, the file name, the
      extracted text and the three context fields unchanged, and the two generated
      texts, obtained from the same user prompt, after markdown conversion. */
  lemma AcceptedRecord(req: Request, env: Collaborators, id: string)
    requires UploadOutcome(req, env, id).Accepted?
    ensures var rec := UploadOutcome(req, env, id).record;
      var prompt := UserPrompt(rec.arquivoConteudo, rec.tipoVaga, rec.profissao, rec.descricaoEmpresa);
      rec.id == id &&
      rec.arquivoNome == req.files["file"].filename &&
      Extract(FormatOf(req).value, req.files["file"].content, env.decoders) == Some(rec.arquivoConteudo) &&
      rec.tipoVaga == req.form["tipo_vaga"] &&
      rec.profissao == req.form["profissao"] &&
      rec.descricaoEmpresa == req.form["descricao_empresa"] &&
      env.generate(GenRequest(ModelName, AvaliadorInstruction, prompt)).Some? &&
      rec.avaliacao == env.markdown(env.generate(GenRequest(ModelName, AvaliadorInstruction, prompt)).value) &&
      env.generate(GenRequest(ModelName, MelhoriasInstruction, prompt)).Some? &&
      rec.melhorias == env.markdown(env.generate(GenRequest(ModelName, MelhoriasInstruction, prompt)).value)
  {
  }

  /** The stored text of an accepted upload, by format: the docx paragraphs joined by
      newlines, textract's text for doc, and the pdf page texts run together, as long
      as the pages together. */
  lemma StoredTextByFormat(req: Request, env: Collaborators, id: string)
    requires UploadOutcome(req, env, id).Accepted?
    ensures var rec := UploadOutcome(req, env, id).record;
      var content := req.files["file"].content;
      (FormatOf(req) == Some(Docx) ==>
        env.decoders.docxParagraphs(content).Some? &&
        rec.arquivoConteudo == Join(env.decoders.docxParagraphs(content).value, "\n")) &&
      (FormatOf(req) == Some(Doc) ==>
        env.decoders.textractProcess(content) == Some(rec.arquivoConteudo)) &&
      (FormatOf(req) == Some(Pdf) ==>
        env.decoders.pdfPageTexts(content).Some? &&
        rec.arquivoConteudo == Concat(env.decoders.pdfPageTexts(content).value) &&
        |rec.arquivoConteudo| == SumLens(env.decoders.pdfPageTexts(content).value))
  {
    var content := req.files["file"].content;
    if FormatOf(req) == Some(Pdf) {
      ConcatLength(env.decoders.pdfPageTexts(content).value);
    }
  }

  /** Every rejection is a client error (400) or, when a decoder or a model call
      fails, a server error (500). */
  lemma RejectionStatus(req: Request, env: Collaborators, id: string)
    requires UploadOutcome(req, env, id).Rejected?
    ensures Status(UploadOutcome(req, env, id).response) == 400 ||
            Status(UploadOutcome(req, env, id).response) == 500
    ensures Status(UploadOutcome(req, env, id).response) == 500 <==>
      FormatOf(req).Some? && req.files["file"].filename != "" &&
      (Extract(FormatOf(req).value, req.files["file"].content, env.decoders).None? ||
       (ReadContext(req.form).Context? &&
        AvaliarCurriculo(Extract(FormatOf(req).value, req.files["file"].content, env.decoders).value,
                         req.form["tipo_vaga"], req.form["profissao"], req.form["descricao_empresa"],
                         env.generate).None?))
  {
  }

  /** The record store: the evaluations by id. Records are only ever added. */
  class AvaliacaoStore {
    var records: map<string, Record>

    /** Each record is filed under its own id. */
    ghost predicate Valid()
      reads this
    {
      forall id :: id in records ==> records[id].id == id
    }

    constructor ()
      ensures Valid() && records == map[]
    {
      records := map[];
    }

    /** `db.session.add` then `commit`: one new record under an id not yet used;
        every earlier record is kept as it was. */
    method Add(rec: Record)
      requires Valid() && rec.id !in records
      modifies this
      ensures Valid()
      ensures records == old(records)[rec.id := rec]
      ensures records.Keys == old(records.Keys) + {rec.id}
    {
      records := records[rec.id := rec];
    }

    /** `AvaliacaoCurriculo.query.get`: the record with that id, if there is one. */
    method Get(id: string) returns (r: Option<Record>)
      requires Valid()
      ensures r.Some? <==> id in records
      ensures r.Some? ==> r.value == records[id] && r.value.id == id
    {
      if id in records {
        r := Some(records[id]);
      } else {
        r := None;
      }
    }

    /** `avaliacao_detalhes`: the detail view of the record, or a 404 text when no
        record has that id. */
    method AvaliacaoDetalhes(id: string) returns (resp: Response)
      requires Valid()
      ensures id in records ==> resp == DetailPage(records[id]) && resp.record.id == id && Status(resp) == 200
      ensures id !in records ==> resp == PlainText(AvaliacaoNaoEncontrada, 404) && Status(resp) == 404
    {
      var avaliacao := Get(id);
      if avaliacao.Some? {
        resp := DetailPage(avaliacao.value);
      } else {
        resp := PlainText(AvaliacaoNaoEncontrada, 404);
      }
    }

    /** `upload_curriculo`, with `novoId` standing for the fresh `uuid4` string.
        A rejected upload answers as `UploadOutcome` says and leaves the store as it
        was; an accepted one adds exactly its record under `novoId` and redirects
        to it. */
    method UploadCurriculo(req: Request, env: Collaborators, novoId: string) returns (resp: Response)
      requires Valid() && novoId !in records
      modifies this
      ensures Valid()
      ensures UploadOutcome(req, env, novoId).Rejected? ==>
        resp == UploadOutcome(req, env, novoId).response && records == old(records)
      ensures UploadOutcome(req, env, novoId).Accepted? ==>
        resp == RedirectToDetail(novoId) &&
        records == old(records)[novoId := UploadOutcome(req, env, novoId).record]
    {
      if "file" !in req.files {
        return JsonError(NenhumArquivoEnviado, 400);
      }
      var file := req.files["file"];
      if file.filename == "" {
        return JsonError(NenhumArquivoSelecionado, 400);
      }
      var fileExtension := FileExtension(file.filename);
      var curriculoTexto: string;
      if fileExtension == "docx" {
        var paragraphs := env.decoders.docxParagraphs(file.content);
        if paragraphs.None? {
          return InternalServerError;
        }
        curriculoTexto := ProcessarDocx(paragraphs.value);
      } else if fileExtension == "doc" {
        var texto := env.decoders.textractProcess(file.content);
        if texto.None? {
          return InternalServerError;
        }
        curriculoTexto := texto.value;
      } else if fileExtension == "pdf" {
        var pages := env.decoders.pdfPageTexts(file.content);
        if pages.None? {
          return InternalServerError;
        }
        curriculoTexto := ProcessarPdf(pages.value);
      } else {
        return JsonError(FormatoNaoSuportado, 400);
      }

      if "tipo_vaga" !in req.form {
        return MissingFormKey("tipo_vaga");
      }
      var tipoVaga := req.form["tipo_vaga"];
      if "profissao" !in req.form {
        return MissingFormKey("profissao");
      }
      var profissao := req.form["profissao"];
      if "descricao_empresa" !in req.form {
        return MissingFormKey("descricao_empresa");
      }
      var descricaoEmpresa := req.form["descricao_empresa"];

      var geracao := AvaliarCurriculo(curriculoTexto, tipoVaga, profissao, descricaoEmpresa, env.generate);
      if geracao.None? {
        return InternalServerError;
      }
      var (avaliacao, melhorias) := geracao.value;

      var novaAvaliacao := Record(novoId, file.filename, curriculoTexto, tipoVaga, profissao, descricaoEmpresa,
                                  env.markdown(avaliacao), env.markdown(melhorias));
      Add(novaAvaliacao);
      resp := RedirectToDetail(novoId);
    }
  }

  /** An upload followed by a view of the id it redirects to: a successful upload
      can be looked up at once, and shows every field as stored; a failed one
      leaves that id unknown. */
  method UploadThenView(store: AvaliacaoStore, req: Request, env: Collaborators, novoId: string)
    returns (resp: Response, view: Response)
    requires store.Valid() && novoId !in store.records
    modifies store
    ensures store.Valid()
    ensures UploadOutcome(req, env, novoId).Accepted? ==>
      resp == RedirectToDetail(novoId) && view == DetailPage(UploadOutcome(req, env, novoId).record)
    ensures UploadOutcome(req, env, novoId).Rejected? ==>
      store.records == old(store.records) && Status(view) == 404
  {
    resp := store.UploadCurriculo(req, env, novoId);
    view := store.AvaliacaoDetalhes(novoId);
  }
}
