/** `alunosSchema` of the students step, whose rates go through the decimal-comma `floatSchema`. */
module AlunosStep {
  import opened Wrappers
  import opened JsonValues
  import opened Zod

  /** The schema's field names. */
  datatype Key =
    | total_beneficiarios | taxa_abandono | taxa_reprovacao_fund1 | taxa_reprovacao_fund2
    | taxa_reprovacao_medio | ideb_anos_iniciais | ideb_anos_finais | ideb_ensino_medio

  const Keys1: set<Key> := {
    total_beneficiarios, taxa_abandono, taxa_reprovacao_fund1, taxa_reprovacao_fund2
  }
  const Keys2: set<Key> := {
    taxa_reprovacao_medio, ideb_anos_iniciais, ideb_anos_finais, ideb_ensino_medio
  }
  const Keys: set<Key> := Keys1 + Keys2

  function Rule(k: Key): Field {
    match k
    case total_beneficiarios => Required(Coerced(true))
    case taxa_abandono => Required(DecimalComma)
    case taxa_reprovacao_fund1 => Required(DecimalComma)
    case taxa_reprovacao_fund2 => Required(DecimalComma)
    case taxa_reprovacao_medio => Required(DecimalComma)
    case ideb_anos_iniciais => Optional(DecimalComma)
    case ideb_anos_finais => Optional(DecimalComma)
    case ideb_ensino_medio => Optional(DecimalComma)
  }

  const Alunos: Shape<Key> := ShapeOf(Keys, Rule)

  /**
   * A valid students record: the number of beneficiaries a number that is
   * not negative, the four rates given and not negative after the
   * decimal-comma preprocessing, and the three IDEB scores so when present.
   */
  predicate ValidAlunos(host: Host, r: Record<Key>) {
    ValidAlunos1(host, r) && ValidAlunos2(host, r)
  }

  predicate ValidAlunos1(host: Host, r: Record<Key>) {
    && NumberField(host, r, total_beneficiarios, true)
    && DecimalCommaField(host, r, taxa_abandono)
    && DecimalCommaField(host, r, taxa_reprovacao_fund1)
    && DecimalCommaField(host, r, taxa_reprovacao_fund2)
  }

  predicate ValidAlunos2(host: Host, r: Record<Key>) {
    && DecimalCommaField(host, r, taxa_reprovacao_medio)
    && (ideb_anos_iniciais in r ==> DecimalCommaField(host, r, ideb_anos_iniciais))
    && (ideb_anos_finais in r ==> DecimalCommaField(host, r, ideb_anos_finais))
    && (ideb_ensino_medio in r ==> DecimalCommaField(host, r, ideb_ensino_medio))
  }

  lemma ValidAlunos1Sound(host: Host, r: Record<Key>)
    requires AllMeet(host, Keys1, Rule, r)
    ensures ValidAlunos1(host, r)
  {
    assert total_beneficiarios in Keys1 && taxa_abandono in Keys1 &&
      taxa_reprovacao_fund1 in Keys1 && taxa_reprovacao_fund2 in Keys1;
  }

  lemma ValidAlunos1Complete(host: Host, r: Record<Key>)
    requires ValidAlunos1(host, r)
    ensures AllMeet(host, Keys1, Rule, r)
  {
  }

  lemma ValidAlunos2Sound(host: Host, r: Record<Key>)
    requires AllMeet(host, Keys2, Rule, r)
    ensures ValidAlunos2(host, r)
  {
    assert taxa_reprovacao_medio in Keys2 && ideb_anos_iniciais in Keys2 &&
      ideb_anos_finais in Keys2 && ideb_ensino_medio in Keys2;
  }

  lemma ValidAlunos2Complete(host: Host, r: Record<Key>)
    requires ValidAlunos2(host, r)
    ensures AllMeet(host, Keys2, Rule, r)
  {
  }

  /** The schema accepts a record exactly when it is a valid students record. */
  lemma AlunosAccepts(host: Host, r: Record<Key>)
    ensures Parse(host, Alunos, r).Ok? <==> ValidAlunos(host, r)
  {
    ParseShapeOf(host, Keys, Rule, r);
    AllMeetUnion(host, Keys1, Keys2, Rule, r);
    if ValidAlunos1(host, r) { ValidAlunos1Complete(host, r); }
    if AllMeet(host, Keys1, Rule, r) { ValidAlunos1Sound(host, r); }
    if ValidAlunos2(host, r) { ValidAlunos2Complete(host, r); }
    if AllMeet(host, Keys2, Rule, r) { ValidAlunos2Sound(host, r); }
  }

  /** An empty rate counts as 0, so a valid record stays valid when a rate is cleared. */
  lemma EmptyRateIsZero(host: Host, r: Record<Key>)
    requires Parse(host, Alunos, r).Ok?
    ensures Parse(host, Alunos, r[taxa_abandono := JString("")]).Ok?
  {
    RateRule(taxa_abandono);
    DecimalCommaEmpty(host);
    SetKeepsPassing(host, Alunos, r, taxa_abandono, JString(""));
  }

  /** The four rates are required decimal-comma numbers, the three IDEB scores optional ones. */
  lemma RateRule(k: Key)
    ensures k in Alunos
    ensures k in {taxa_abandono, taxa_reprovacao_fund1, taxa_reprovacao_fund2, taxa_reprovacao_medio} ==> Alunos[k] == Required(DecimalComma)
    ensures k in {ideb_anos_iniciais, ideb_anos_finais, ideb_ensino_medio} ==> Alunos[k] == Optional(DecimalComma)
  {
  }

  /** A missing rate fails, while the IDEB scores may be left out. */
  lemma RatesRequired(host: Host, r: Record<Key>)
    ensures taxa_abandono !in r ==> !ValidAlunos(host, r)
    ensures ValidAlunos(host, r) ==> ValidAlunos(host, r - {ideb_anos_iniciais, ideb_anos_finais, ideb_ensino_medio})
  {
    var r' := r - {ideb_anos_iniciais, ideb_anos_finais, ideb_ensino_medio};
    assert forall k :: k !in {ideb_anos_iniciais, ideb_anos_finais, ideb_ensino_medio} ==> Lookup(r', k) == Lookup(r, k);
  }
}
