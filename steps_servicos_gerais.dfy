/** `servicosGeraisSchema` of the cleaning-staff step. */
module ServicosGeraisStep {
  import opened Wrappers
  import opened JsonValues
  import opened Zod

  /** The schema's field names. */
  datatype Key =
    | qtd_servicos_gerais_efetivo | qtd_servicos_gerais_temporario
    | qtd_servicos_gerais_terceirizado | qtd_atende_necessidade_sg | quantitativo_necessario_sg
    | empresa_terceirizada_sg | possui_supervisor_sg | nome_supervisor_sg
    | contato_supervisor_sg

  const Keys1: set<Key> := {
    qtd_servicos_gerais_efetivo, qtd_servicos_gerais_temporario,
    qtd_servicos_gerais_terceirizado, qtd_atende_necessidade_sg
  }
  const Keys2: set<Key> := {
    quantitativo_necessario_sg, empresa_terceirizada_sg, possui_supervisor_sg,
    nome_supervisor_sg
  }
  const Keys3: set<Key> := {
    contato_supervisor_sg
  }
  const Keys: set<Key> := Keys1 + Keys2 + Keys3

  function Rule(k: Key): Field {
    match k
    case qtd_servicos_gerais_efetivo => Required(Coerced(false))
    case qtd_servicos_gerais_temporario => Required(Coerced(false))
    case qtd_servicos_gerais_terceirizado => Required(Coerced(false))
    case qtd_atende_necessidade_sg => Required(Text(1, None))
    case quantitativo_necessario_sg => Optional(Coerced(false))
    case empresa_terceirizada_sg => Optional(Text(0, None))
    case possui_supervisor_sg => Optional(Text(0, None))
    case nome_supervisor_sg => Optional(Text(0, None))
    case contato_supervisor_sg => Optional(Text(0, None))
  }

  const ServicosGerais: Shape<Key> := ShapeOf(Keys, Rule)

  /**
   * A valid cleaning-staff record: the three staff counts numbers of any
   * sign, the adequacy question answered, the number needed a number when
   * present, and the company and supervisor fields strings when present.
   */
  predicate ValidServicosGerais(host: Host, r: Record<Key>) {
    ValidServicosGerais1(host, r) && ValidServicosGerais2(host, r) && ValidServicosGerais3(host, r)
  }

  predicate ValidServicosGerais1(host: Host, r: Record<Key>) {
    && NumberField(host, r, qtd_servicos_gerais_efetivo, false)
    && NumberField(host, r, qtd_servicos_gerais_temporario, false)
    && NumberField(host, r, qtd_servicos_gerais_terceirizado, false)
    && TextAtLeast(r, qtd_atende_necessidade_sg, 1)
  }

  predicate ValidServicosGerais2(host: Host, r: Record<Key>) {
    && NumberOrAbsent(host, r, quantitativo_necessario_sg, false)
    && TextOrAbsent(r, empresa_terceirizada_sg)
    && TextOrAbsent(r, possui_supervisor_sg)
    && TextOrAbsent(r, nome_supervisor_sg)
  }

  predicate ValidServicosGerais3(host: Host, r: Record<Key>) {
    && TextOrAbsent(r, contato_supervisor_sg)
  }

  lemma ValidServicosGerais1Sound(host: Host, r: Record<Key>)
    requires AllMeet(host, Keys1, Rule, r)
    ensures ValidServicosGerais1(host, r)
  {
    assert qtd_servicos_gerais_efetivo in Keys1 && qtd_servicos_gerais_temporario in Keys1 &&
      qtd_servicos_gerais_terceirizado in Keys1 && qtd_atende_necessidade_sg in Keys1;
  }

  lemma ValidServicosGerais1Complete(host: Host, r: Record<Key>)
    requires ValidServicosGerais1(host, r)
    ensures AllMeet(host, Keys1, Rule, r)
  {
  }

  lemma ValidServicosGerais2Sound(host: Host, r: Record<Key>)
    requires AllMeet(host, Keys2, Rule, r)
    ensures ValidServicosGerais2(host, r)
  {
    assert quantitativo_necessario_sg in Keys2 && empresa_terceirizada_sg in Keys2 &&
      possui_supervisor_sg in Keys2 && nome_supervisor_sg in Keys2;
  }

  lemma ValidServicosGerais2Complete(host: Host, r: Record<Key>)
    requires ValidServicosGerais2(host, r)
    ensures AllMeet(host, Keys2, Rule, r)
  {
  }

  lemma ValidServicosGerais3Sound(host: Host, r: Record<Key>)
    requires AllMeet(host, Keys3, Rule, r)
    ensures ValidServicosGerais3(host, r)
  {
    assert contato_supervisor_sg in Keys3;
  }

  lemma ValidServicosGerais3Complete(host: Host, r: Record<Key>)
    requires ValidServicosGerais3(host, r)
    ensures AllMeet(host, Keys3, Rule, r)
  {
  }

  /** The schema accepts a record exactly when it is a valid cleaning-staff record. */
  lemma ServicosGeraisAccepts(host: Host, r: Record<Key>)
    ensures Parse(host, ServicosGerais, r).Ok? <==> ValidServicosGerais(host, r)
  {
    ParseShapeOf(host, Keys, Rule, r);
    AllMeetUnion(host, Keys1, Keys2, Rule, r);
    AllMeetUnion(host, Keys1 + Keys2, Keys3, Rule, r);
    if ValidServicosGerais1(host, r) { ValidServicosGerais1Complete(host, r); }
    if AllMeet(host, Keys1, Rule, r) { ValidServicosGerais1Sound(host, r); }
    if ValidServicosGerais2(host, r) { ValidServicosGerais2Complete(host, r); }
    if AllMeet(host, Keys2, Rule, r) { ValidServicosGerais2Sound(host, r); }
    if ValidServicosGerais3(host, r) { ValidServicosGerais3Complete(host, r); }
    if AllMeet(host, Keys3, Rule, r) { ValidServicosGerais3Sound(host, r); }
  }

  /** The three counts and a non-empty answer are enough, and the parsed record is exactly them. */
  lemma MinimalRecord(host: Host, a: Number, b: Number, c: Number, answer: string)
    requires answer != ""
    ensures var r := map[qtd_servicos_gerais_efetivo := JNumber(a), qtd_servicos_gerais_temporario := JNumber(b),
                         qtd_servicos_gerais_terceirizado := JNumber(c), qtd_atende_necessidade_sg := JString(answer)];
      Parse(host, ServicosGerais, r) == Ok(r)
  {
    var r := map[qtd_servicos_gerais_efetivo := JNumber(a), qtd_servicos_gerais_temporario := JNumber(b),
                 qtd_servicos_gerais_terceirizado := JNumber(c), qtd_atende_necessidade_sg := JString(answer)];
    MinimalFields(host, a, b, c, answer);
    PassesUnchanged(host, ServicosGerais, r);
  }

  /** Each of the four given fields passes unchanged, and every field left out is optional. */
  lemma MinimalFields(host: Host, a: Number, b: Number, c: Number, answer: string)
    requires answer != ""
    ensures var r := map[qtd_servicos_gerais_efetivo := JNumber(a), qtd_servicos_gerais_temporario := JNumber(b),
                         qtd_servicos_gerais_terceirizado := JNumber(c), qtd_atende_necessidade_sg := JString(answer)];
      && (forall k :: k in r ==> k in ServicosGerais && CheckField(host, ServicosGerais[k], Some(r[k])) == Value(r[k]))
      && (forall k :: k in ServicosGerais && k !in r ==> ServicosGerais[k].Optional?)
  {
  }
}
