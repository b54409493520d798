/** `gestaoSchema` of the school-management step. */
module GestaoStep {
  import opened Wrappers
  import opened JsonValues
  import opened Zod

  const RecursosProdep: seq<string> := ["Sim", "Não", "Não sabe informar"]
  const Execucao: seq<string> := ["Sim, totalmente", "Parcialmente", "Não executados"]
  const Pendencias: seq<string> := ["Não", "Sim, em regularização", "Sim, pendente/atrasada"]
  const Reunioes: seq<string> :=
    ["Não ocorrem", "Eventuais (1–2 por ano)", "Regulares (semestrais)", "Frequentes (mensais ou mais)"]
  const Bullying: seq<string> := ["Sim, formalizada e aplicada", "Parcialmente (ações pontuais)", "Não possui"]

  /** The schema's field names. */
  datatype Key =
    | regularizada_cee | conselho_escolar | conselho_ativo | recursos_prodep | valor_prodep
    | execucao_prodep | pendencias_prodep | recursos_federais | valor_federais
    | execucao_federais | pendencias_federais | gremio_estudantil | reunioes_comunidade
    | plano_evacuacao | politica_bullying

  const Keys1: set<Key> := {
    regularizada_cee, conselho_escolar, conselho_ativo, recursos_prodep
  }
  const Keys2: set<Key> := {
    valor_prodep, execucao_prodep, pendencias_prodep, recursos_federais
  }
  const Keys3: set<Key> := {
    valor_federais, execucao_federais, pendencias_federais, gremio_estudantil
  }
  const Keys4: set<Key> := {
    reunioes_comunidade, plano_evacuacao, politica_bullying
  }
  const Keys: set<Key> := Keys1 + Keys2 + Keys3 + Keys4

  function Rule(k: Key): Field {
    match k
    case regularizada_cee => Required(OneOf(YesNo))
    case conselho_escolar => Required(OneOf(YesNo))
    case conselho_ativo => Optional(OneOf(YesPartlyNo))
    case recursos_prodep => Required(OneOf(RecursosProdep))
    case valor_prodep => Optional(Coerced(true))
    case execucao_prodep => Optional(OneOf(Execucao))
    case pendencias_prodep => Optional(OneOf(Pendencias))
    case recursos_federais => Required(OneOf(YesNo))
    case valor_federais => Optional(Coerced(true))
    case execucao_federais => Optional(OneOf(Execucao))
    case pendencias_federais => Optional(OneOf(Pendencias))
    case gremio_estudantil => Required(OneOf(YesNo))
    case reunioes_comunidade => Required(OneOf(Reunioes))
    case plano_evacuacao => Required(OneOf(YesNo))
    case politica_bullying => Required(OneOf(Bullying))
  }

  const Gestao: Shape<Key> := ShapeOf(Keys, Rule)

  /**
   * A valid management record: the CEE, council, federal funds, student
   * union and evacuation questions answered Sim or Não; PRODEP answered
   * from its three answers; community meetings and bullying policy from
   * their lists; the two amounts numbers that are not negative when
   * present; council activity, execution and pending issues from their
   * lists when present.
   */
  predicate ValidGestao(host: Host, r: Record<Key>) {
    ValidGestao1(host, r) && ValidGestao2(host, r) && ValidGestao3(host, r) && ValidGestao4(host, r)
  }

  predicate ValidGestao1(host: Host, r: Record<Key>) {
    && IsOneOf(r, regularizada_cee, YesNo)
    && IsOneOf(r, conselho_escolar, YesNo)
    && OneOfOrAbsent(r, conselho_ativo, YesPartlyNo)
    && IsOneOf(r, recursos_prodep, RecursosProdep)
  }

  predicate ValidGestao2(host: Host, r: Record<Key>) {
    && NumberOrAbsent(host, r, valor_prodep, true)
    && OneOfOrAbsent(r, execucao_prodep, Execucao)
    && OneOfOrAbsent(r, pendencias_prodep, Pendencias)
    && IsOneOf(r, recursos_federais, YesNo)
  }

  predicate ValidGestao3(host: Host, r: Record<Key>) {
    && NumberOrAbsent(host, r, valor_federais, true)
    && OneOfOrAbsent(r, execucao_federais, Execucao)
    && OneOfOrAbsent(r, pendencias_federais, Pendencias)
    && IsOneOf(r, gremio_estudantil, YesNo)
  }

  predicate ValidGestao4(host: Host, r: Record<Key>) {
    && IsOneOf(r, reunioes_comunidade, Reunioes)
    && IsOneOf(r, plano_evacuacao, YesNo)
    && IsOneOf(r, politica_bullying, Bullying)
  }

  lemma ValidGestao1Sound(host: Host, r: Record<Key>)
    requires AllMeet(host, Keys1, Rule, r)
    ensures ValidGestao1(host, r)
  {
    assert regularizada_cee in Keys1 && conselho_escolar in Keys1 && conselho_ativo in Keys1 &&
      recursos_prodep in Keys1;
  }

  lemma ValidGestao1Complete(host: Host, r: Record<Key>)
    requires ValidGestao1(host, r)
    ensures AllMeet(host, Keys1, Rule, r)
  {
  }

  lemma ValidGestao2Sound(host: Host, r: Record<Key>)
    requires AllMeet(host, Keys2, Rule, r)
    ensures ValidGestao2(host, r)
  {
    assert valor_prodep in Keys2 && execucao_prodep in Keys2 && pendencias_prodep in Keys2 &&
      recursos_federais in Keys2;
  }

  lemma ValidGestao2Complete(host: Host, r: Record<Key>)
    requires ValidGestao2(host, r)
    ensures AllMeet(host, Keys2, Rule, r)
  {
  }

  lemma ValidGestao3Sound(host: Host, r: Record<Key>)
    requires AllMeet(host, Keys3, Rule, r)
    ensures ValidGestao3(host, r)
  {
    assert valor_federais in Keys3 && execucao_federais in Keys3 && pendencias_federais in Keys3 &&
      gremio_estudantil in Keys3;
  }

  lemma ValidGestao3Complete(host: Host, r: Record<Key>)
    requires ValidGestao3(host, r)
    ensures AllMeet(host, Keys3, Rule, r)
  {
  }

  lemma ValidGestao4Sound(host: Host, r: Record<Key>)
    requires AllMeet(host, Keys4, Rule, r)
    ensures ValidGestao4(host, r)
  {
    assert reunioes_comunidade in Keys4 && plano_evacuacao in Keys4 && politica_bullying in Keys4;
  }

  lemma ValidGestao4Complete(host: Host, r: Record<Key>)
    requires ValidGestao4(host, r)
    ensures AllMeet(host, Keys4, Rule, r)
  {
  }

  /** The schema accepts a record exactly when it is a valid management record. */
  lemma GestaoAccepts(host: Host, r: Record<Key>)
    ensures Parse(host, Gestao, r).Ok? <==> ValidGestao(host, r)
  {
    ParseShapeOf(host, Keys, Rule, r);
    AllMeetUnion(host, Keys1, Keys2, Rule, r);
    AllMeetUnion(host, Keys1 + Keys2, Keys3, Rule, r);
    AllMeetUnion(host, Keys1 + Keys2 + Keys3, Keys4, Rule, r);
    if ValidGestao1(host, r) { ValidGestao1Complete(host, r); }
    if AllMeet(host, Keys1, Rule, r) { ValidGestao1Sound(host, r); }
    if ValidGestao2(host, r) { ValidGestao2Complete(host, r); }
    if AllMeet(host, Keys2, Rule, r) { ValidGestao2Sound(host, r); }
    if ValidGestao3(host, r) { ValidGestao3Complete(host, r); }
    if AllMeet(host, Keys3, Rule, r) { ValidGestao3Sound(host, r); }
    if ValidGestao4(host, r) { ValidGestao4Complete(host, r); }
    if AllMeet(host, Keys4, Rule, r) { ValidGestao4Sound(host, r); }
  }

  /** Execution, pending issues and amount may all be left out even when PRODEP funds were received. */
  lemma ProdepDetailsIndependent(host: Host, r: Record<Key>)
    requires Parse(host, Gestao, r).Ok?
    ensures Parse(host, Gestao, (r - {valor_prodep, execucao_prodep, pendencias_prodep})[recursos_prodep := JString("Sim")]).Ok?
  {
    ProdepRules();
    RemoveKeepsPassing(host, Gestao, r, {valor_prodep, execucao_prodep, pendencias_prodep});
    var r' := r - {valor_prodep, execucao_prodep, pendencias_prodep};
    SetKeepsPassing(host, Gestao, r', recursos_prodep, JString("Sim"));
  }

  /** PRODEP's answer is required; its amount, execution and pending issues are optional. */
  lemma ProdepRules()
    ensures recursos_prodep in Gestao && Gestao[recursos_prodep] == Required(OneOf(RecursosProdep))
    ensures valor_prodep in Gestao && Gestao[valor_prodep] == Optional(Coerced(true))
    ensures execucao_prodep in Gestao && Gestao[execucao_prodep] == Optional(OneOf(Execucao))
    ensures pendencias_prodep in Gestao && Gestao[pendencias_prodep] == Optional(OneOf(Pendencias))
  {
  }

  /** The two amounts are optional numbers that are not negative. */
  lemma AmountRule(k: Key)
    requires k == valor_prodep || k == valor_federais
    ensures k in Gestao && Gestao[k] == Optional(Coerced(true))
  {
  }

  /** A negative amount is rejected. */
  lemma NegativeAmountRejected(host: Host, r: Record<Key>, k: Key, n: Number)
    requires (k == valor_prodep || k == valor_federais) && IsNegative(n)
    ensures Parse(host, Gestao, r[k := JNumber(n)]).Err?
    ensures k in Parse(host, Gestao, r[k := JNumber(n)]).error
  {
    AmountRule(k);
    FailureReported(host, Gestao, r[k := JNumber(n)], k);
  }
}
