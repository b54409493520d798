/** `merendaSchema` of the school-meals step. */
module MerendaStep {
  import opened Wrappers
  import opened JsonValues
  import opened Zod

  const CondicoesCozinha: seq<string> := ["Boa", "Regular", "Precária"]
  const TamanhoCozinha: seq<string> := ["Pequena", "Média", "Grande"]

  /** The schema's field names. */
  datatype Key =
    | condicoes_cozinha | tamanho_cozinha | oferta_regular | qualidade_merenda
    | atende_necessidades | possui_refeitorio | refeitorio_adequado | possui_balanca
    | qtd_freezers | estado_freezers | qtd_geladeiras | estado_geladeiras | qtd_fogoes
    | estado_fogoes | qtd_fornos | estado_fornos | qtd_bebedouros | estado_bebedouros
    | bancadas_inox | sistema_exaustao | despensa_exclusiva | deposito_conserva
    | estoque_epi_extintor | manutencao_extintores | qtd_merendeiras_estatutaria
    | qtd_merendeiras_terceirizada | qtd_merendeiras_temporaria | qtd_atende_necessidade_merenda
    | empresa_terceirizada_merenda | possui_supervisor_merenda | nome_supervisor_merenda
    | contato_supervisor_merenda

  const Keys1: set<Key> := {
    condicoes_cozinha, tamanho_cozinha, oferta_regular, qualidade_merenda
  }
  const Keys2: set<Key> := {
    atende_necessidades, possui_refeitorio, refeitorio_adequado, possui_balanca
  }
  const Keys3: set<Key> := {
    qtd_freezers, estado_freezers, qtd_geladeiras, estado_geladeiras
  }
  const Keys4: set<Key> := {
    qtd_fogoes, estado_fogoes, qtd_fornos, estado_fornos
  }
  const Keys5: set<Key> := {
    qtd_bebedouros, estado_bebedouros, bancadas_inox, sistema_exaustao
  }
  const Keys6: set<Key> := {
    despensa_exclusiva, deposito_conserva, estoque_epi_extintor, manutencao_extintores
  }
  const Keys7: set<Key> := {
    qtd_merendeiras_estatutaria, qtd_merendeiras_terceirizada, qtd_merendeiras_temporaria,
    qtd_atende_necessidade_merenda
  }
  const Keys8: set<Key> := {
    empresa_terceirizada_merenda, possui_supervisor_merenda, nome_supervisor_merenda,
    contato_supervisor_merenda
  }
  const Keys: set<Key> := Keys1 + Keys2 + Keys3 + Keys4 + Keys5 + Keys6 + Keys7 + Keys8

  function Rule(k: Key): Field {
    match k
    case condicoes_cozinha => Required(OneOf(CondicoesCozinha))
    case tamanho_cozinha => Required(OneOf(TamanhoCozinha))
    case oferta_regular => Required(Text(1, None))
    case qualidade_merenda => Required(Text(1, None))
    case atende_necessidades => Required(Text(1, None))
    case possui_refeitorio => Required(Text(1, None))
    case refeitorio_adequado => Optional(Text(0, None))
    case possui_balanca => Optional(Text(0, None))
    case qtd_freezers => Required(Coerced(false))
    case estado_freezers => Optional(Text(0, None))
    case qtd_geladeiras => Required(Coerced(false))
    case estado_geladeiras => Optional(Text(0, None))
    case qtd_fogoes => Required(Coerced(false))
    case estado_fogoes => Optional(Text(0, None))
    case qtd_fornos => Required(Coerced(false))
    case estado_fornos => Optional(Text(0, None))
    case qtd_bebedouros => Required(Coerced(false))
    case estado_bebedouros => Optional(Text(0, None))
    case bancadas_inox => Optional(Text(0, None))
    case sistema_exaustao => Optional(Text(0, None))
    case despensa_exclusiva => Optional(Text(0, None))
    case deposito_conserva => Optional(Text(0, None))
    case estoque_epi_extintor => Optional(Text(0, None))
    case manutencao_extintores => Optional(Text(0, None))
    case qtd_merendeiras_estatutaria => Required(Coerced(false))
    case qtd_merendeiras_terceirizada => Required(Coerced(false))
    case qtd_merendeiras_temporaria => Required(Coerced(false))
    case qtd_atende_necessidade_merenda => Required(Text(1, None))
    case empresa_terceirizada_merenda => Optional(Text(0, None))
    case possui_supervisor_merenda => Optional(Text(0, None))
    case nome_supervisor_merenda => Optional(Text(0, None))
    case contato_supervisor_merenda => Optional(Text(0, None))
  }

  const Merenda: Shape<Key> := ShapeOf(Keys, Rule)

  /**
   * A valid meals record: the kitchen's condition and size from their
   * lists; regularity, quality, adequacy, refectory and staff-adequacy
   * answered; the five appliance counts and three cook counts numbers of
   * any sign; every other field a string when present.
   */
  predicate ValidMerenda(host: Host, r: Record<Key>) {
    ValidMerenda1(host, r) && ValidMerenda2(host, r) && ValidMerenda3(host, r) && ValidMerenda4(host, r) && ValidMerenda5(host, r) && ValidMerenda6(host, r) && ValidMerenda7(host, r) && ValidMerenda8(host, r)
  }

  predicate ValidMerenda1(host: Host, r: Record<Key>) {
    && IsOneOf(r, condicoes_cozinha, CondicoesCozinha)
    && IsOneOf(r, tamanho_cozinha, TamanhoCozinha)
    && TextAtLeast(r, oferta_regular, 1)
    && TextAtLeast(r, qualidade_merenda, 1)
  }

  predicate ValidMerenda2(host: Host, r: Record<Key>) {
    && TextAtLeast(r, atende_necessidades, 1)
    && TextAtLeast(r, possui_refeitorio, 1)
    && TextOrAbsent(r, refeitorio_adequado)
    && TextOrAbsent(r, possui_balanca)
  }

  predicate ValidMerenda3(host: Host, r: Record<Key>) {
    && NumberField(host, r, qtd_freezers, false)
    && TextOrAbsent(r, estado_freezers)
    && NumberField(host, r, qtd_geladeiras, false)
    && TextOrAbsent(r, estado_geladeiras)
  }

  predicate ValidMerenda4(host: Host, r: Record<Key>) {
    && NumberField(host, r, qtd_fogoes, false)
    && TextOrAbsent(r, estado_fogoes)
    && NumberField(host, r, qtd_fornos, false)
    && TextOrAbsent(r, estado_fornos)
  }

  predicate ValidMerenda5(host: Host, r: Record<Key>) {
    && NumberField(host, r, qtd_bebedouros, false)
    && TextOrAbsent(r, estado_bebedouros)
    && TextOrAbsent(r, bancadas_inox)
    && TextOrAbsent(r, sistema_exaustao)
  }

  predicate ValidMerenda6(host: Host, r: Record<Key>) {
    && TextOrAbsent(r, despensa_exclusiva)
    && TextOrAbsent(r, deposito_conserva)
    && TextOrAbsent(r, estoque_epi_extintor)
    && TextOrAbsent(r, manutencao_extintores)
  }

  predicate ValidMerenda7(host: Host, r: Record<Key>) {
    && NumberField(host, r, qtd_merendeiras_estatutaria, false)
    && NumberField(host, r, qtd_merendeiras_terceirizada, false)
    && NumberField(host, r, qtd_merendeiras_temporaria, false)
    && TextAtLeast(r, qtd_atende_necessidade_merenda, 1)
  }

  predicate ValidMerenda8(host: Host, r: Record<Key>) {
    && TextOrAbsent(r, empresa_terceirizada_merenda)
    && TextOrAbsent(r, possui_supervisor_merenda)
    && TextOrAbsent(r, nome_supervisor_merenda)
    && TextOrAbsent(r, contato_supervisor_merenda)
  }

  lemma ValidMerenda1Sound(host: Host, r: Record<Key>)
    requires AllMeet(host, Keys1, Rule, r)
    ensures ValidMerenda1(host, r)
  {
    assert condicoes_cozinha in Keys1 && tamanho_cozinha in Keys1 && oferta_regular in Keys1 &&
      qualidade_merenda in Keys1;
  }

  lemma ValidMerenda1Complete(host: Host, r: Record<Key>)
    requires ValidMerenda1(host, r)
    ensures AllMeet(host, Keys1, Rule, r)
  {
  }

  lemma ValidMerenda2Sound(host: Host, r: Record<Key>)
    requires AllMeet(host, Keys2, Rule, r)
    ensures ValidMerenda2(host, r)
  {
    assert atende_necessidades in Keys2 && possui_refeitorio in Keys2 &&
      refeitorio_adequado in Keys2 && possui_balanca in Keys2;
  }

  lemma ValidMerenda2Complete(host: Host, r: Record<Key>)
    requires ValidMerenda2(host, r)
    ensures AllMeet(host, Keys2, Rule, r)
  {
  }

  lemma ValidMerenda3Sound(host: Host, r: Record<Key>)
    requires AllMeet(host, Keys3, Rule, r)
    ensures ValidMerenda3(host, r)
  {
    assert qtd_freezers in Keys3 && estado_freezers in Keys3 && qtd_geladeiras in Keys3 &&
      estado_geladeiras in Keys3;
  }

  lemma ValidMerenda3Complete(host: Host, r: Record<Key>)
    requires ValidMerenda3(host, r)
    ensures AllMeet(host, Keys3, Rule, r)
  {
  }

  lemma ValidMerenda4Sound(host: Host, r: Record<Key>)
    requires AllMeet(host, Keys4, Rule, r)
    ensures ValidMerenda4(host, r)
  {
    assert qtd_fogoes in Keys4 && estado_fogoes in Keys4 && qtd_fornos in Keys4 &&
      estado_fornos in Keys4;
  }

  lemma ValidMerenda4Complete(host: Host, r: Record<Key>)
    requires ValidMerenda4(host, r)
    ensures AllMeet(host, Keys4, Rule, r)
  {
  }

  lemma ValidMerenda5Sound(host: Host, r: Record<Key>)
    requires AllMeet(host, Keys5, Rule, r)
    ensures ValidMerenda5(host, r)
  {
    assert qtd_bebedouros in Keys5 && estado_bebedouros in Keys5 && bancadas_inox in Keys5 &&
      sistema_exaustao in Keys5;
  }

  lemma ValidMerenda5Complete(host: Host, r: Record<Key>)
    requires ValidMerenda5(host, r)
    ensures AllMeet(host, Keys5, Rule, r)
  {
  }

  lemma ValidMerenda6Sound(host: Host, r: Record<Key>)
    requires AllMeet(host, Keys6, Rule, r)
    ensures ValidMerenda6(host, r)
  {
    assert despensa_exclusiva in Keys6 && deposito_conserva in Keys6 &&
      estoque_epi_extintor in Keys6 && manutencao_extintores in Keys6;
  }

  lemma ValidMerenda6Complete(host: Host, r: Record<Key>)
    requires ValidMerenda6(host, r)
    ensures AllMeet(host, Keys6, Rule, r)
  {
  }

  lemma ValidMerenda7Sound(host: Host, r: Record<Key>)
    requires AllMeet(host, Keys7, Rule, r)
    ensures ValidMerenda7(host, r)
  {
    assert qtd_merendeiras_estatutaria in Keys7 && qtd_merendeiras_terceirizada in Keys7 &&
      qtd_merendeiras_temporaria in Keys7 && qtd_atende_necessidade_merenda in Keys7;
  }

  lemma ValidMerenda7Complete(host: Host, r: Record<Key>)
    requires ValidMerenda7(host, r)
    ensures AllMeet(host, Keys7, Rule, r)
  {
  }

  lemma ValidMerenda8Sound(host: Host, r: Record<Key>)
    requires AllMeet(host, Keys8, Rule, r)
    ensures ValidMerenda8(host, r)
  {
    assert empresa_terceirizada_merenda in Keys8 && possui_supervisor_merenda in Keys8 &&
      nome_supervisor_merenda in Keys8 && contato_supervisor_merenda in Keys8;
  }

  lemma ValidMerenda8Complete(host: Host, r: Record<Key>)
    requires ValidMerenda8(host, r)
    ensures AllMeet(host, Keys8, Rule, r)
  {
  }

  /** The schema accepts a record exactly when it is a valid meals record. */
  lemma MerendaAccepts(host: Host, r: Record<Key>)
    ensures Parse(host, Merenda, r).Ok? <==> ValidMerenda(host, r)
  {
    ParseShapeOf(host, Keys, Rule, r);
    AllMeetUnion(host, Keys1, Keys2, Rule, r);
    AllMeetUnion(host, Keys1 + Keys2, Keys3, Rule, r);
    AllMeetUnion(host, Keys1 + Keys2 + Keys3, Keys4, Rule, r);
    AllMeetUnion(host, Keys1 + Keys2 + Keys3 + Keys4, Keys5, Rule, r);
    AllMeetUnion(host, Keys1 + Keys2 + Keys3 + Keys4 + Keys5, Keys6, Rule, r);
    AllMeetUnion(host, Keys1 + Keys2 + Keys3 + Keys4 + Keys5 + Keys6, Keys7, Rule, r);
    AllMeetUnion(host, Keys1 + Keys2 + Keys3 + Keys4 + Keys5 + Keys6 + Keys7, Keys8, Rule, r);
    if ValidMerenda1(host, r) { ValidMerenda1Complete(host, r); }
    if AllMeet(host, Keys1, Rule, r) { ValidMerenda1Sound(host, r); }
    if ValidMerenda2(host, r) { ValidMerenda2Complete(host, r); }
    if AllMeet(host, Keys2, Rule, r) { ValidMerenda2Sound(host, r); }
    if ValidMerenda3(host, r) { ValidMerenda3Complete(host, r); }
    if AllMeet(host, Keys3, Rule, r) { ValidMerenda3Sound(host, r); }
    if ValidMerenda4(host, r) { ValidMerenda4Complete(host, r); }
    if AllMeet(host, Keys4, Rule, r) { ValidMerenda4Sound(host, r); }
    if ValidMerenda5(host, r) { ValidMerenda5Complete(host, r); }
    if AllMeet(host, Keys5, Rule, r) { ValidMerenda5Sound(host, r); }
    if ValidMerenda6(host, r) { ValidMerenda6Complete(host, r); }
    if AllMeet(host, Keys6, Rule, r) { ValidMerenda6Sound(host, r); }
    if ValidMerenda7(host, r) { ValidMerenda7Complete(host, r); }
    if AllMeet(host, Keys7, Rule, r) { ValidMerenda7Sound(host, r); }
    if ValidMerenda8(host, r) { ValidMerenda8Complete(host, r); }
    if AllMeet(host, Keys8, Rule, r) { ValidMerenda8Sound(host, r); }
  }

  /** The five appliance counts and the three cook counts. */
  const Counts: set<Key> := {
    qtd_freezers, qtd_geladeiras, qtd_fogoes, qtd_fornos, qtd_bebedouros,
    qtd_merendeiras_estatutaria, qtd_merendeiras_terceirizada, qtd_merendeiras_temporaria
  }

  /** Each count is a required `z.coerce.number()` with no lower bound. */
  lemma CountRule(k: Key)
    requires k in Counts
    ensures k in Merenda && Merenda[k] == Required(Coerced(false))
  {
    assert k in Keys && Rule(k) == Required(Coerced(false));
  }

  /** The counts have no lower bound: a valid record stays valid with any number, negative ones included, as a count. */
  lemma AnyCountAccepted(host: Host, r: Record<Key>, k: Key, n: Number)
    requires Parse(host, Merenda, r).Ok? && k in Counts
    ensures Parse(host, Merenda, r[k := JNumber(n)]).Ok?
  {
    CountRule(k);
    SetKeepsPassing(host, Merenda, r, k, JNumber(n));
  }

  /** The refectory question is a required answer, its adequacy an optional string. */
  lemma RefectoryRules()
    ensures possui_refeitorio in Merenda && Merenda[possui_refeitorio] == Required(Text(1, None))
    ensures refeitorio_adequado in Merenda && Merenda[refeitorio_adequado] == Optional(Text(0, None))
  {
  }

  /** Whether the refectory is adequate may be left out even when there is one. */
  lemma RefectoryAdequacyIndependent(host: Host, r: Record<Key>)
    requires Parse(host, Merenda, r).Ok?
    ensures Parse(host, Merenda, (r - {refeitorio_adequado})[possui_refeitorio := JString("Sim")]).Ok?
  {
    RefectoryRules();
    RemoveKeepsPassing(host, Merenda, r, {refeitorio_adequado});
    SetKeepsPassing(host, Merenda, r - {refeitorio_adequado}, possui_refeitorio, JString("Sim"));
  }
}
