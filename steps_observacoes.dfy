/** `observacoesSchema` of the closing step. */
module ObservacoesStep {
  import opened Wrappers
  import opened JsonValues
  import opened Zod

  /** The schema's field names. */
  datatype Key =
    | prioridade_1 | prioridade_2 | prioridade_3 | demanda_urgente | descricao_urgencia
    | sugestao_melhoria | descricao_sugestao | nome_responsavel | cargo_funcao
    | matricula_funcional | declaracao_verdadeira

  const Keys1: set<Key> := {
    prioridade_1, prioridade_2, prioridade_3, demanda_urgente
  }
  const Keys2: set<Key> := {
    descricao_urgencia, sugestao_melhoria, descricao_sugestao, nome_responsavel
  }
  const Keys3: set<Key> := {
    cargo_funcao, matricula_funcional, declaracao_verdadeira
  }
  const Keys: set<Key> := Keys1 + Keys2 + Keys3

  function Rule(k: Key): Field {
    match k
    case prioridade_1 => Required(Text(1, None))
    case prioridade_2 => Required(Text(1, None))
    case prioridade_3 => Required(Text(1, None))
    case demanda_urgente => Required(OneOf(YesNo))
    case descricao_urgencia => Optional(Text(0, None))
    case sugestao_melhoria => Required(OneOf(YesNo))
    case descricao_sugestao => Optional(Text(0, None))
    case nome_responsavel => Required(Text(3, None))
    case cargo_funcao => Required(Text(3, None))
    case matricula_funcional => Optional(Text(0, None))
    case declaracao_verdadeira => Required(MustBeTrue)
  }

  const Observacoes: Shape<Key> := ShapeOf(Keys, Rule)

  /**
   * A valid closing record: three non-empty priorities, the urgent-demand
   * and suggestion questions answered Sim or Não, a name and a role of at
   * least 3 characters, the descriptions and registration number strings
   * when present, and the declaration exactly `true`.
   */
  predicate ValidObservacoes(r: Record<Key>) {
    ValidObservacoes1(r) && ValidObservacoes2(r) && ValidObservacoes3(r)
  }

  predicate ValidObservacoes1(r: Record<Key>) {
    && TextAtLeast(r, prioridade_1, 1)
    && TextAtLeast(r, prioridade_2, 1)
    && TextAtLeast(r, prioridade_3, 1)
    && IsOneOf(r, demanda_urgente, YesNo)
  }

  predicate ValidObservacoes2(r: Record<Key>) {
    && TextOrAbsent(r, descricao_urgencia)
    && IsOneOf(r, sugestao_melhoria, YesNo)
    && TextOrAbsent(r, descricao_sugestao)
    && TextAtLeast(r, nome_responsavel, 3)
  }

  predicate ValidObservacoes3(r: Record<Key>) {
    && TextAtLeast(r, cargo_funcao, 3)
    && TextOrAbsent(r, matricula_funcional)
    && IsTrue(r, declaracao_verdadeira)
  }

  lemma ValidObservacoes1Sound(host: Host, r: Record<Key>)
    requires AllMeet(host, Keys1, Rule, r)
    ensures ValidObservacoes1(r)
  {
    assert prioridade_1 in Keys1 && prioridade_2 in Keys1 && prioridade_3 in Keys1 &&
      demanda_urgente in Keys1;
  }

  lemma ValidObservacoes1Complete(host: Host, r: Record<Key>)
    requires ValidObservacoes1(r)
    ensures AllMeet(host, Keys1, Rule, r)
  {
  }

  lemma ValidObservacoes2Sound(host: Host, r: Record<Key>)
    requires AllMeet(host, Keys2, Rule, r)
    ensures ValidObservacoes2(r)
  {
    assert descricao_urgencia in Keys2 && sugestao_melhoria in Keys2 &&
      descricao_sugestao in Keys2 && nome_responsavel in Keys2;
  }

  lemma ValidObservacoes2Complete(host: Host, r: Record<Key>)
    requires ValidObservacoes2(r)
    ensures AllMeet(host, Keys2, Rule, r)
  {
  }

  lemma ValidObservacoes3Sound(host: Host, r: Record<Key>)
    requires AllMeet(host, Keys3, Rule, r)
    ensures ValidObservacoes3(r)
  {
    assert cargo_funcao in Keys3 && matricula_funcional in Keys3 && declaracao_verdadeira in Keys3;
  }

  lemma ValidObservacoes3Complete(host: Host, r: Record<Key>)
    requires ValidObservacoes3(r)
    ensures AllMeet(host, Keys3, Rule, r)
  {
  }

  /** The schema accepts a record exactly when it is a valid closing record. */
  lemma ObservacoesAccepts(host: Host, r: Record<Key>)
    ensures Parse(host, Observacoes, r).Ok? <==> ValidObservacoes(r)
  {
    ParseShapeOf(host, Keys, Rule, r);
    AllMeetUnion(host, Keys1, Keys2, Rule, r);
    AllMeetUnion(host, Keys1 + Keys2, Keys3, Rule, r);
    if ValidObservacoes1(r) { ValidObservacoes1Complete(host, r); }
    if AllMeet(host, Keys1, Rule, r) { ValidObservacoes1Sound(host, r); }
    if ValidObservacoes2(r) { ValidObservacoes2Complete(host, r); }
    if AllMeet(host, Keys2, Rule, r) { ValidObservacoes2Sound(host, r); }
    if ValidObservacoes3(r) { ValidObservacoes3Complete(host, r); }
    if AllMeet(host, Keys3, Rule, r) { ValidObservacoes3Sound(host, r); }
  }

  /** An unchecked declaration fails the step. */
  lemma DeclarationRequired(host: Host, r: Record<Key>, v: JValue)
    requires v != JBool(true)
    ensures Parse(host, Observacoes, r[declaracao_verdadeira := v]).Err?
  {
    ObservacoesAccepts(host, r[declaracao_verdadeira := v]);
  }

  /** The descriptions may be left out even when the answers are Sim. */
  lemma DescriptionsIndependent(r: Record<Key>)
    requires ValidObservacoes(r)
    ensures ValidObservacoes((r - {descricao_urgencia, descricao_sugestao})[demanda_urgente := JString("Sim")]
                               [sugestao_melhoria := JString("Sim")])
  {
  }
}
