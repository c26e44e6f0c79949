/**
 * The two calls to the generative model: the evaluation (`avaliar_curriculo_ai`)
 * and the improvement suggestions (`sugerir_melhorias_ai`). The model itself is an
 * opaque function from a request to generated text, or `None` when the call fails.
 */
module Generation {
  import opened Wrappers
  import opened Strings

  /** What one `generate_content` call sends: the model, its system instruction and
      the user prompt. */
  datatype GenRequest = GenRequest(modelName: string, systemInstruction: string, contents: string)

  const ModelName: string := "gemini-1.5-flash"

  /** The three placeholders the instructions mention, as sent: braces included. */
  const TipoVagaPlaceholder: string := "{tipo_vaga}"
  const ProfissaoPlaceholder: string := "{profissao}"
  const DescricaoEmpresaPlaceholder: string := "{descricao_empresa}"

  /** The evaluator's system instruction. It is a plain literal, not an f-string: the
      placeholders are sent as written and nothing is substituted into them. */
  const AvaliadorInstruction: string :=
    "Você é uma IA especialista em currículos. Avalie o currículo abaixo, destacando pontos fortes e fracos "
    + "e adequando-o ao tipo de vaga '" + TipoVagaPlaceholder + "', à profissão '" + ProfissaoPlaceholder
    + "' e à descrição da empresa '" + DescricaoEmpresaPlaceholder + "'."

  /** The improver's system instruction; a plain literal as well. */
  const MelhoriasInstruction: string :=
    "Você é uma IA especialista em melhorar currículos. Com base no currículo abaixo e nos seguintes parâmetros, "
    + "sugira melhorias específicas para adequar o currículo à vaga desejada:\n"
    + "Tipo de Vaga: " + TipoVagaPlaceholder + "\nProfissão: " + ProfissaoPlaceholder
    + "\nDescrição da Empresa: " + DescricaoEmpresaPlaceholder + "."

  /** `sub` occurs in `s` starting at index `i`. */
  predicate OccursAt(sub: string, s: string, i: int)
  {
    0 <= i && i + |sub| <= |s| && s[i..i + |sub|] == sub
  }

  ghost predicate Occurs(sub: string, s: string)
  {
    exists i :: OccursAt(sub, s, i)
  }

  /** In a string assembled around three inserted parts, each part occurs right
      after everything before it. */
  lemma OccursInTemplate(p0: string, x: string, p1: string, y: string, p2: string, z: string, p3: string)
    ensures OccursAt(x, p0 + x + p1 + y + p2 + z + p3, |p0|)
    ensures OccursAt(y, p0 + x + p1 + y + p2 + z + p3, |p0 + x + p1|)
    ensures OccursAt(z, p0 + x + p1 + y + p2 + z + p3, |p0 + x + p1 + y + p2|)
  {
    var s := p0 + x + p1 + y + p2 + z + p3;
    assert s == p0 + x + (p1 + y + p2 + z + p3);
    assert s[|p0|..|p0| + |x|] == x;
    assert s == (p0 + x + p1) + y + (p2 + z + p3);
    assert s[|p0 + x + p1|..|p0 + x + p1| + |y|] == y;
    assert s == (p0 + x + p1 + y + p2) + z + p3;
    assert s[|p0 + x + p1 + y + p2|..|p0 + x + p1 + y + p2| + |z|] == z;
  }

  /** The user prompt both calls send: four labelled lines built from the résumé
      text and the three context fields. It opens with the résumé line and adds
      exactly 61 characters of labels and line breaks to the four inputs. */
  function UserPrompt(curriculo: string, tipoVaga: string, profissao: string, descricaoEmpresa: string): (prompt: string)
    ensures "Currículo: " + curriculo <= prompt
    ensures |prompt| == |curriculo| + |tipoVaga| + |profissao| + |descricaoEmpresa| + 61
  {
    "Currículo: " + curriculo + "\nTipo de Vaga: " + tipoVaga + "\nProfissão: " + profissao
    + "\nDescrição da Empresa: " + descricaoEmpresa
  }

  function AvaliacaoRequest(curriculo: string, tipoVaga: string, profissao: string, descricaoEmpresa: string): GenRequest
  {
    GenRequest(ModelName, AvaliadorInstruction, UserPrompt(curriculo, tipoVaga, profissao, descricaoEmpresa))
  }

  function MelhoriasRequest(curriculo: string, tipoVaga: string, profissao: string, descricaoEmpresa: string): GenRequest
  {
    GenRequest(ModelName, MelhoriasInstruction, UserPrompt(curriculo, tipoVaga, profissao, descricaoEmpresa))
  }

  /** `sugerir_melhorias_ai`: one call that sends the evaluation request with the
      improver's instruction in place of the evaluator's. */
  function SugerirMelhorias(curriculo: string, tipoVaga: string, profissao: string, descricaoEmpresa: string,
                            generate: GenRequest -> Option<string>): (r: Option<string>)
    ensures r == generate(AvaliacaoRequest(curriculo, tipoVaga, profissao, descricaoEmpresa)
                            .(systemInstruction := MelhoriasInstruction))
  {
    generate(MelhoriasRequest(curriculo, tipoVaga, profissao, descricaoEmpresa))
  }

  /** `avaliar_curriculo_ai`: the evaluation call, then the suggestions call. It
      succeeds exactly when both calls succeed, and then gives their two texts; a
      failure of either call is a failure of the whole step. */
  function AvaliarCurriculo(curriculo: string, tipoVaga: string, profissao: string, descricaoEmpresa: string,
                            generate: GenRequest -> Option<string>): (r: Option<(string, string)>)
    ensures r.Some? <==>
      generate(AvaliacaoRequest(curriculo, tipoVaga, profissao, descricaoEmpresa)).Some? &&
      generate(MelhoriasRequest(curriculo, tipoVaga, profissao, descricaoEmpresa)).Some?
    ensures r.Some? ==>
      r.value.0 == generate(AvaliacaoRequest(curriculo, tipoVaga, profissao, descricaoEmpresa)).value &&
      r.value.1 == generate(MelhoriasRequest(curriculo, tipoVaga, profissao, descricaoEmpresa)).value
  {
    match generate(AvaliacaoRequest(curriculo, tipoVaga, profissao, descricaoEmpresa))
    case None => None
    case Some(avaliacao) =>
      match SugerirMelhorias(curriculo, tipoVaga, profissao, descricaoEmpresa, generate)
      case None => None
      case Some(melhorias) => Some((avaliacao, melhorias))
  }

  /** The two requests go to the same model with the identical user prompt and differ
      only in their system instruction, which does not depend on any input. */
  lemma RequestsDifferOnlyInInstruction(curriculo: string, tipoVaga: string, profissao: string, descricaoEmpresa: string)
    ensures AvaliacaoRequest(curriculo, tipoVaga, profissao, descricaoEmpresa).modelName == ModelName
    ensures MelhoriasRequest(curriculo, tipoVaga, profissao, descricaoEmpresa).modelName == ModelName
    ensures AvaliacaoRequest(curriculo, tipoVaga, profissao, descricaoEmpresa).contents
         == MelhoriasRequest(curriculo, tipoVaga, profissao, descricaoEmpresa).contents
    ensures AvaliacaoRequest(curriculo, tipoVaga, profissao, descricaoEmpresa).systemInstruction == AvaliadorInstruction
    ensures MelhoriasRequest(curriculo, tipoVaga, profissao, descricaoEmpresa).systemInstruction == MelhoriasInstruction
    ensures AvaliadorInstruction != MelhoriasInstruction
  {
    assert |AvaliadorInstruction| == 221 && |MelhoriasInstruction| == 270;
  }

  /** Both system instructions hold the placeholder text itself, braces included. */
  lemma InstructionsHoldPlaceholders()
    ensures Occurs(TipoVagaPlaceholder, AvaliadorInstruction)
    ensures Occurs(ProfissaoPlaceholder, AvaliadorInstruction)
    ensures Occurs(DescricaoEmpresaPlaceholder, AvaliadorInstruction)
    ensures Occurs(TipoVagaPlaceholder, MelhoriasInstruction)
    ensures Occurs(ProfissaoPlaceholder, MelhoriasInstruction)
    ensures Occurs(DescricaoEmpresaPlaceholder, MelhoriasInstruction)
  {
    OccursInTemplate(
      "Você é uma IA especialista em currículos. Avalie o currículo abaixo, destacando pontos fortes e fracos "
      + "e adequando-o ao tipo de vaga '", TipoVagaPlaceholder, "', à profissão '", ProfissaoPlaceholder,
      "' e à descrição da empresa '", DescricaoEmpresaPlaceholder, "'.");
    OccursInTemplate(
      "Você é uma IA especialista em melhorar currículos. Com base no currículo abaixo e nos seguintes parâmetros, "
      + "sugira melhorias específicas para adequar o currículo à vaga desejada:\n"
      + "Tipo de Vaga: ", TipoVagaPlaceholder, "\nProfissão: ", ProfissaoPlaceholder,
      "\nDescrição da Empresa: ", DescricaoEmpresaPlaceholder, ".");
  }

  /** Three newline-free lines appended to a text, one newline before each, are
      its last three lines. */
  lemma {:induction false} ThreeLastLines(a: string, t: string, p: string, d: string)
    requires '\n' !in t && '\n' !in p && '\n' !in d
    ensures Split(a + "\n" + t + "\n" + p + "\n" + d, '\n') == Split(a, '\n') + [t, p, d]
  {
    assert a + "\n" + t + "\n" + p + "\n" + d == a + ['\n'] + (t + ['\n'] + (p + ['\n'] + d));
    SplitConcat(a, t + ['\n'] + (p + ['\n'] + d), '\n');
    SplitConcat(t, p + ['\n'] + d, '\n');
    SplitConcat(p, d, '\n');
    SplitWithoutSeparator(t, '\n');
    SplitWithoutSeparator(p, '\n');
    SplitWithoutSeparator(d, '\n');
  }

  /** The lines of the user prompt: those of the résumé line, then one line per
      context field, when the context fields hold no newline. */
  lemma UserPromptLines(curriculo: string, tipoVaga: string, profissao: string, descricaoEmpresa: string)
    requires '\n' !in tipoVaga && '\n' !in profissao && '\n' !in descricaoEmpresa
    ensures Split(UserPrompt(curriculo, tipoVaga, profissao, descricaoEmpresa), '\n')
         == Split("Currículo: " + curriculo, '\n')
            + ["Tipo de Vaga: " + tipoVaga, "Profissão: " + profissao, "Descrição da Empresa: " + descricaoEmpresa]
  {
    var a := "Currículo: " + curriculo;
    var t := "Tipo de Vaga: " + tipoVaga;
    var p := "Profissão: " + profissao;
    var d := "Descrição da Empresa: " + descricaoEmpresa;
    assert "\nTipo de Vaga: " == "\n" + "Tipo de Vaga: ";
    assert "\nProfissão: " == "\n" + "Profissão: ";
    assert "\nDescrição da Empresa: " == "\n" + "Descrição da Empresa: ";
    assert UserPrompt(curriculo, tipoVaga, profissao, descricaoEmpresa) == a + "\n" + t + "\n" + p + "\n" + d;
    assert '\n' !in t && '\n' !in p && '\n' !in d;
    ThreeLastLines(a, t, p, d);
  }

  /** The user prompt keeps its four inputs apart: when the context fields hold no
      newline, two equal prompts come from the same résumé text and context. */
  lemma {:induction false} UserPromptInjective(c1: string, t1: string, p1: string, d1: string,
                                               c2: string, t2: string, p2: string, d2: string)
    requires '\n' !in t1 && '\n' !in p1 && '\n' !in d1
    requires '\n' !in t2 && '\n' !in p2 && '\n' !in d2
    requires UserPrompt(c1, t1, p1, d1) == UserPrompt(c2, t2, p2, d2)
    ensures c1 == c2 && t1 == t2 && p1 == p2 && d1 == d2
  {
    UserPromptLines(c1, t1, p1, d1);
    UserPromptLines(c2, t2, p2, d2);
    var a1 := Split("Currículo: " + c1, '\n');
    var a2 := Split("Currículo: " + c2, '\n');
    var lines := Split(UserPrompt(c1, t1, p1, d1), '\n');
    var n := |lines|;
    assert |a1| == n - 3 == |a2|;
    assert lines[..n - 3] == a1 && lines[..n - 3] == a2;
    assert lines[n - 3] == "Tipo de Vaga: " + t1 == "Tipo de Vaga: " + t2;
    assert lines[n - 2] == "Profissão: " + p1 == "Profissão: " + p2;
    assert lines[n - 1] == "Descrição da Empresa: " + d1 == "Descrição da Empresa: " + d2;
    assert t1 == ("Tipo de Vaga: " + t1)[14..] == ("Tipo de Vaga: " + t2)[14..] == t2;
    assert p1 == ("Profissão: " + p1)[11..] == ("Profissão: " + p2)[11..] == p2;
    assert d1 == ("Descrição da Empresa: " + d1)[22..] == ("Descrição da Empresa: " + d2)[22..] == d2;
    SplitJoin("Currículo: " + c1, '\n');
    SplitJoin("Currículo: " + c2, '\n');
    assert c1 == ("Currículo: " + c1)[11..] == ("Currículo: " + c2)[11..] == c2;
  }
}
