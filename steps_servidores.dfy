/** `servidoresSchema` of the staff step, whose counts default to 0. */
module ServidoresStep {
  import opened Wrappers
  import opened JsonValues
  import opened Zod

  /** The schema's field names. */
  datatype Key =
    | possui_direcao | possui_vice_pedagogico | possui_vice_administrativo | possui_secretario
    | possui_coord_pedagogico | qtd_coord_pedagogico | possui_coord_area_matematica
    | possui_coord_area_linguagem | possui_coord_area_humanas | possui_coord_area_natureza
    | qtd_professores_efetivos | qtd_professores_temporarios | qtd_servidores_administrativos
    | possui_professor_readaptado | qtd_professor_readaptado

  const Keys1: set<Key> := {
    possui_direcao, possui_vice_pedagogico, possui_vice_administrativo, possui_secretario
  }
  const Keys2: set<Key> := {
    possui_coord_pedagogico, qtd_coord_pedagogico, possui_coord_area_matematica,
    possui_coord_area_linguagem
  }
  const Keys3: set<Key> := {
    possui_coord_area_humanas, possui_coord_area_natureza, qtd_professores_efetivos,
    qtd_professores_temporarios
  }
  const Keys4: set<Key> := {
    qtd_servidores_administrativos, possui_professor_readaptado, qtd_professor_readaptado
  }
  const Keys: set<Key> := Keys1 + Keys2 + Keys3 + Keys4

  function Rule(k: Key): Field {
    match k
    case possui_direcao => Required(OneOf(YesNo))
    case possui_vice_pedagogico => Required(OneOf(YesNo))
    case possui_vice_administrativo => Required(OneOf(YesNo))
    case possui_secretario => Required(OneOf(YesNo))
    case possui_coord_pedagogico => Required(OneOf(YesNo))
    case qtd_coord_pedagogico => Default(Coerced(true), JNumber(Zero))
    case possui_coord_area_matematica => Required(OneOf(YesNo))
    case possui_coord_area_linguagem => Required(OneOf(YesNo))
    case possui_coord_area_humanas => Required(OneOf(YesNo))
    case possui_coord_area_natureza => Required(OneOf(YesNo))
    case qtd_professores_efetivos => Default(Coerced(true), JNumber(Zero))
    case qtd_professores_temporarios => Default(Coerced(true), JNumber(Zero))
    case qtd_servidores_administrativos => Default(Coerced(true), JNumber(Zero))
    case possui_professor_readaptado => Required(OneOf(YesNo))
    case qtd_professor_readaptado => Default(Coerced(true), JNumber(Zero))
  }

  const Servidores: Shape<Key> := ShapeOf(Keys, Rule)

  /**
   * A valid staff record: the ten `possui_*` questions answered Sim or
   * Não, and the five counts numbers that are not negative when present.
   */
  predicate ValidServidores(host: Host, r: Record<Key>) {
    ValidServidores1(host, r) && ValidServidores2(host, r) && ValidServidores3(host, r) && ValidServidores4(host, r)
  }

  predicate ValidServidores1(host: Host, r: Record<Key>) {
    && IsOneOf(r, possui_direcao, YesNo)
    && IsOneOf(r, possui_vice_pedagogico, YesNo)
    && IsOneOf(r, possui_vice_administrativo, YesNo)
    && IsOneOf(r, possui_secretario, YesNo)
  }

  predicate ValidServidores2(host: Host, r: Record<Key>) {
    && IsOneOf(r, possui_coord_pedagogico, YesNo)
    && NumberOrAbsent(host, r, qtd_coord_pedagogico, true)
    && IsOneOf(r, possui_coord_area_matematica, YesNo)
    && IsOneOf(r, possui_coord_area_linguagem, YesNo)
  }

  predicate ValidServidores3(host: Host, r: Record<Key>) {
    && IsOneOf(r, possui_coord_area_humanas, YesNo)
    && IsOneOf(r, possui_coord_area_natureza, YesNo)
    && NumberOrAbsent(host, r, qtd_professores_efetivos, true)
    && NumberOrAbsent(host, r, qtd_professores_temporarios, true)
  }

  predicate ValidServidores4(host: Host, r: Record<Key>) {
    && NumberOrAbsent(host, r, qtd_servidores_administrativos, true)
    && IsOneOf(r, possui_professor_readaptado, YesNo)
    && NumberOrAbsent(host, r, qtd_professor_readaptado, true)
  }

  lemma ValidServidores1Sound(host: Host, r: Record<Key>)
    requires AllMeet(host, Keys1, Rule, r)
    ensures ValidServidores1(host, r)
  {
    assert possui_direcao in Keys1 && possui_vice_pedagogico in Keys1 &&
      possui_vice_administrativo in Keys1 && possui_secretario in Keys1;
  }

  lemma ValidServidores1Complete(host: Host, r: Record<Key>)
    requires ValidServidores1(host, r)
    ensures AllMeet(host, Keys1, Rule, r)
  {
  }

  lemma ValidServidores2Sound(host: Host, r: Record<Key>)
    requires AllMeet(host, Keys2, Rule, r)
    ensures ValidServidores2(host, r)
  {
    assert possui_coord_pedagogico in Keys2 && qtd_coord_pedagogico in Keys2 &&
      possui_coord_area_matematica in Keys2 && possui_coord_area_linguagem in Keys2;
  }

  lemma ValidServidores2Complete(host: Host, r: Record<Key>)
    requires ValidServidores2(host, r)
    ensures AllMeet(host, Keys2, Rule, r)
  {
  }

  lemma ValidServidores3Sound(host: Host, r: Record<Key>)
    requires AllMeet(host, Keys3, Rule, r)
    ensures ValidServidores3(host, r)
  {
    assert possui_coord_area_humanas in Keys3 && possui_coord_area_natureza in Keys3 &&
      qtd_professores_efetivos in Keys3 && qtd_professores_temporarios in Keys3;
  }

  lemma ValidServidores3Complete(host: Host, r: Record<Key>)
    requires ValidServidores3(host, r)
    ensures AllMeet(host, Keys3, Rule, r)
  {
  }

  lemma ValidServidores4Sound(host: Host, r: Record<Key>)
    requires AllMeet(host, Keys4, Rule, r)
    ensures ValidServidores4(host, r)
  {
    assert qtd_servidores_administrativos in Keys4 && possui_professor_readaptado in Keys4 &&
      qtd_professor_readaptado in Keys4;
  }

  lemma ValidServidores4Complete(host: Host, r: Record<Key>)
    requires ValidServidores4(host, r)
    ensures AllMeet(host, Keys4, Rule, r)
  {
  }

  /** The schema accepts a record exactly when it is a valid staff record. */
  lemma ServidoresAccepts(host: Host, r: Record<Key>)
    ensures Parse(host, Servidores, r).Ok? <==> ValidServidores(host, r)
  {
    ParseShapeOf(host, Keys, Rule, r);
    AllMeetUnion(host, Keys1, Keys2, Rule, r);
    AllMeetUnion(host, Keys1 + Keys2, Keys3, Rule, r);
    AllMeetUnion(host, Keys1 + Keys2 + Keys3, Keys4, Rule, r);
    if ValidServidores1(host, r) { ValidServidores1Complete(host, r); }
    if AllMeet(host, Keys1, Rule, r) { ValidServidores1Sound(host, r); }
    if ValidServidores2(host, r) { ValidServidores2Complete(host, r); }
    if AllMeet(host, Keys2, Rule, r) { ValidServidores2Sound(host, r); }
    if ValidServidores3(host, r) { ValidServidores3Complete(host, r); }
    if AllMeet(host, Keys3, Rule, r) { ValidServidores3Sound(host, r); }
    if ValidServidores4(host, r) { ValidServidores4Complete(host, r); }
    if AllMeet(host, Keys4, Rule, r) { ValidServidores4Sound(host, r); }
  }

  /** The five counts a parsed record always carries. */
  const Counts: set<Key> :=
    {qtd_coord_pedagogico, qtd_professores_efetivos, qtd_professores_temporarios, qtd_servidores_administrativos,
     qtd_professor_readaptado}

  /** Each count defaults to 0 and is otherwise a number that is not negative. */
  lemma CountRule(k: Key)
    requires k in Counts
    ensures k in Servidores && Servidores[k] == Default(Coerced(true), JNumber(Zero))
  {
  }

  /** A record that passes comes out with all five counts, 0 for each one left out. */
  lemma CountsFilled(host: Host, r: Record<Key>, k: Key)
    requires Parse(host, Servidores, r).Ok? && k in Counts
    ensures k in Parse(host, Servidores, r).value
    ensures k !in r ==> Parse(host, Servidores, r).value[k] == JNumber(Zero)
  {
    CountRule(k);
    DefaultsFilled(host, Servidores, r, k);
  }

  /** The coordinator question is a required Sim or Não. */
  lemma CoordinatorRule()
    ensures possui_coord_pedagogico in Servidores && Servidores[possui_coord_pedagogico] == Required(OneOf(YesNo))
  {
  }

  /** Counts are not tied to their answer: any number of coordinators is accepted alongside Não. */
  lemma CountIndependentOfAnswer(host: Host, r: Record<Key>, n: Number)
    requires Parse(host, Servidores, r).Ok? && !IsNegative(n)
    ensures Parse(host, Servidores, r[qtd_coord_pedagogico := JNumber(n)][possui_coord_pedagogico := JString("Não")]).Ok?
  {
    CountRule(qtd_coord_pedagogico);
    CoordinatorRule();
    var r' := r[qtd_coord_pedagogico := JNumber(n)];
    SetKeepsPassing(host, Servidores, r, qtd_coord_pedagogico, JNumber(n));
    SetKeepsPassing(host, Servidores, r', possui_coord_pedagogico, JString("Não"));
  }
}
