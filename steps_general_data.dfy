/**
 * `generalDataSchema` of the general-data step, with its `numberSchema`
 * (`z.coerce.number()`, a `NaN`-to-0 transform, then `.min(0)`).
 */
module GeneralDataStep {
  import opened Wrappers
  import opened JsonValues
  import opened Zod

  const PerimetroOptions: seq<string> := ["Sim, totalmente", "Parcialmente", "Não"]
  const ClimatizacaoOptions: seq<string> :=
    ["Sim", "Não", "Não, somente com adequações", "Não, todas as salas são climatizadas"]

  /** The schema's field names. */
  datatype Key =
    | tipo_predio | possui_anexos | qtd_anexos | tipo_predio_anexo | etapas_ofertadas
    | modalidades_ofertadas | qtd_salas_aula | turmas_manha | turmas_tarde | turmas_noite
    | total_alunos | alunos_pcd | alunos_rural | alunos_urbana | muro_cerca | perimetro_fechado
    | situacao_estrutura | data_ultima_reforma | ambientes | quadra_coberta | qtd_quadras
    | banda_fanfarra | banheiros_alunos | banheiros_prof | banheiros_chuveiro
    | banheiros_vasos_funcionais | salas_climatizadas | energia | transformador
    | rede_eletrica_atende | problemas_eletricos | estrutura_climatizacao
    | suporta_novos_equipamentos | cameras_funcionamento | cameras_cobrem

  const Keys1: set<Key> := {
    tipo_predio, possui_anexos, qtd_anexos, tipo_predio_anexo
  }
  const Keys2: set<Key> := {
    etapas_ofertadas, modalidades_ofertadas, qtd_salas_aula, turmas_manha
  }
  const Keys3: set<Key> := {
    turmas_tarde, turmas_noite, total_alunos, alunos_pcd
  }
  const Keys4: set<Key> := {
    alunos_rural, alunos_urbana, muro_cerca, perimetro_fechado
  }
  const Keys5: set<Key> := {
    situacao_estrutura, data_ultima_reforma, ambientes, quadra_coberta
  }
  const Keys6: set<Key> := {
    qtd_quadras, banda_fanfarra, banheiros_alunos, banheiros_prof
  }
  const Keys7: set<Key> := {
    banheiros_chuveiro, banheiros_vasos_funcionais, salas_climatizadas, energia
  }
  const Keys8: set<Key> := {
    transformador, rede_eletrica_atende, problemas_eletricos, estrutura_climatizacao
  }
  const Keys9: set<Key> := {
    suporta_novos_equipamentos, cameras_funcionamento, cameras_cobrem
  }
  const Keys: set<Key> := Keys1 + Keys2 + Keys3 + Keys4 + Keys5 + Keys6 + Keys7 + Keys8 + Keys9

  function Rule(k: Key): Field {
    match k
    case tipo_predio => Required(Text(1, None))
    case possui_anexos => Required(OneOf(YesNo))
    case qtd_anexos => Optional(NaNAsZero)
    case tipo_predio_anexo => Optional(Text(0, None))
    case etapas_ofertadas => Required(TextList(1))
    case modalidades_ofertadas => Required(TextList(1))
    case qtd_salas_aula => Required(NaNAsZero)
    case turmas_manha => Optional(NaNAsZero)
    case turmas_tarde => Optional(NaNAsZero)
    case turmas_noite => Optional(NaNAsZero)
    case total_alunos => Required(NaNAsZero)
    case alunos_pcd => Optional(NaNAsZero)
    case alunos_rural => Optional(NaNAsZero)
    case alunos_urbana => Optional(NaNAsZero)
    case muro_cerca => Required(Text(1, None))
    case perimetro_fechado => Required(OneOf(PerimetroOptions))
    case situacao_estrutura => Required(Text(1, None))
    case data_ultima_reforma => Optional(Text(0, None))
    case ambientes => Optional(TextList(0))
    case quadra_coberta => Required(OneOf(YesNo))
    case qtd_quadras => Optional(NaNAsZero)
    case banda_fanfarra => Required(OneOf(YesNo))
    case banheiros_alunos => Required(NaNAsZero)
    case banheiros_prof => Required(NaNAsZero)
    case banheiros_chuveiro => Required(NaNAsZero)
    case banheiros_vasos_funcionais => Required(Text(1, None))
    case salas_climatizadas => Required(NaNAsZero)
    case energia => Required(Text(1, None))
    case transformador => Required(OneOf(YesNo))
    case rede_eletrica_atende => Required(OneOf(YesPartlyNo))
    case problemas_eletricos => Optional(TextList(0))
    case estrutura_climatizacao => Required(OneOf(ClimatizacaoOptions))
    case suporta_novos_equipamentos => Required(OneOf(YesPartlyNo))
    case cameras_funcionamento => Required(Text(1, None))
    case cameras_cobrem => Optional(Text(0, None))
  }

  const GeneralData: Shape<Key> := ShapeOf(Keys, Rule)

  /**
   * Valid general data: building type, wall, structure, toilets, energy
   * and cameras answered; the annex, court, band and transformer questions
   * answered Sim or Não; at least one stage and one modality offered; the
   * room, student, toilet and air-conditioned-room counts given as
   * numbers that are not negative, and the other counts so when present.
   */
  predicate ValidGeneralData(host: Host, r: Record<Key>) {
    ValidGeneralData1(host, r) && ValidGeneralData2(host, r) && ValidGeneralData3(host, r) && ValidGeneralData4(host, r) && ValidGeneralData5(host, r) && ValidGeneralData6(host, r) && ValidGeneralData7(host, r) && ValidGeneralData8(host, r) && ValidGeneralData9(host, r)
  }

  predicate ValidGeneralData1(host: Host, r: Record<Key>) {
    && TextAtLeast(r, tipo_predio, 1)
    && IsOneOf(r, possui_anexos, YesNo)
    && NumberOrAbsent(host, r, qtd_anexos, true)
    && TextOrAbsent(r, tipo_predio_anexo)
  }

  predicate ValidGeneralData2(host: Host, r: Record<Key>) {
    && TextListAtLeast(r, etapas_ofertadas, 1)
    && TextListAtLeast(r, modalidades_ofertadas, 1)
    && NumberField(host, r, qtd_salas_aula, true)
    && NumberOrAbsent(host, r, turmas_manha, true)
  }

  predicate ValidGeneralData3(host: Host, r: Record<Key>) {
    && NumberOrAbsent(host, r, turmas_tarde, true)
    && NumberOrAbsent(host, r, turmas_noite, true)
    && NumberField(host, r, total_alunos, true)
    && NumberOrAbsent(host, r, alunos_pcd, true)
  }

  predicate ValidGeneralData4(host: Host, r: Record<Key>) {
    && NumberOrAbsent(host, r, alunos_rural, true)
    && NumberOrAbsent(host, r, alunos_urbana, true)
    && TextAtLeast(r, muro_cerca, 1)
    && IsOneOf(r, perimetro_fechado, PerimetroOptions)
  }

  predicate ValidGeneralData5(host: Host, r: Record<Key>) {
    && TextAtLeast(r, situacao_estrutura, 1)
    && TextOrAbsent(r, data_ultima_reforma)
    && TextListOrAbsent(r, ambientes)
    && IsOneOf(r, quadra_coberta, YesNo)
  }

  predicate ValidGeneralData6(host: Host, r: Record<Key>) {
    && NumberOrAbsent(host, r, qtd_quadras, true)
    && IsOneOf(r, banda_fanfarra, YesNo)
    && NumberField(host, r, banheiros_alunos, true)
    && NumberField(host, r, banheiros_prof, true)
  }

  predicate ValidGeneralData7(host: Host, r: Record<Key>) {
    && NumberField(host, r, banheiros_chuveiro, true)
    && TextAtLeast(r, banheiros_vasos_funcionais, 1)
    && NumberField(host, r, salas_climatizadas, true)
    && TextAtLeast(r, energia, 1)
  }

  predicate ValidGeneralData8(host: Host, r: Record<Key>) {
    && IsOneOf(r, transformador, YesNo)
    && IsOneOf(r, rede_eletrica_atende, YesPartlyNo)
    && TextListOrAbsent(r, problemas_eletricos)
    && IsOneOf(r, estrutura_climatizacao, ClimatizacaoOptions)
  }

  predicate ValidGeneralData9(host: Host, r: Record<Key>) {
    && IsOneOf(r, suporta_novos_equipamentos, YesPartlyNo)
    && TextAtLeast(r, cameras_funcionamento, 1)
    && TextOrAbsent(r, cameras_cobrem)
  }

  lemma ValidGeneralData1Sound(host: Host, r: Record<Key>)
    requires AllMeet(host, Keys1, Rule, r)
    ensures ValidGeneralData1(host, r)
  {
    assert tipo_predio in Keys1 && possui_anexos in Keys1 && qtd_anexos in Keys1 &&
      tipo_predio_anexo in Keys1;
  }

  lemma ValidGeneralData1Complete(host: Host, r: Record<Key>)
    requires ValidGeneralData1(host, r)
    ensures AllMeet(host, Keys1, Rule, r)
  {
  }

  lemma ValidGeneralData2Sound(host: Host, r: Record<Key>)
    requires AllMeet(host, Keys2, Rule, r)
    ensures ValidGeneralData2(host, r)
  {
    assert etapas_ofertadas in Keys2 && modalidades_ofertadas in Keys2 &&
      qtd_salas_aula in Keys2 && turmas_manha in Keys2;
  }

  lemma ValidGeneralData2Complete(host: Host, r: Record<Key>)
    requires ValidGeneralData2(host, r)
    ensures AllMeet(host, Keys2, Rule, r)
  {
  }

  lemma ValidGeneralData3Sound(host: Host, r: Record<Key>)
    requires AllMeet(host, Keys3, Rule, r)
    ensures ValidGeneralData3(host, r)
  {
    assert turmas_tarde in Keys3 && turmas_noite in Keys3 && total_alunos in Keys3 &&
      alunos_pcd in Keys3;
  }

  lemma ValidGeneralData3Complete(host: Host, r: Record<Key>)
    requires ValidGeneralData3(host, r)
    ensures AllMeet(host, Keys3, Rule, r)
  {
  }

  lemma ValidGeneralData4Sound(host: Host, r: Record<Key>)
    requires AllMeet(host, Keys4, Rule, r)
    ensures ValidGeneralData4(host, r)
  {
    assert alunos_rural in Keys4 && alunos_urbana in Keys4 && muro_cerca in Keys4 &&
      perimetro_fechado in Keys4;
  }

  lemma ValidGeneralData4Complete(host: Host, r: Record<Key>)
    requires ValidGeneralData4(host, r)
    ensures AllMeet(host, Keys4, Rule, r)
  {
  }

  lemma ValidGeneralData5Sound(host: Host, r: Record<Key>)
    requires AllMeet(host, Keys5, Rule, r)
    ensures ValidGeneralData5(host, r)
  {
    assert situacao_estrutura in Keys5 && data_ultima_reforma in Keys5 && ambientes in Keys5 &&
      quadra_coberta in Keys5;
  }

  lemma ValidGeneralData5Complete(host: Host, r: Record<Key>)
    requires ValidGeneralData5(host, r)
    ensures AllMeet(host, Keys5, Rule, r)
  {
  }

  lemma ValidGeneralData6Sound(host: Host, r: Record<Key>)
    requires AllMeet(host, Keys6, Rule, r)
    ensures ValidGeneralData6(host, r)
  {
    assert qtd_quadras in Keys6 && banda_fanfarra in Keys6 && banheiros_alunos in Keys6 &&
      banheiros_prof in Keys6;
  }

  lemma ValidGeneralData6Complete(host: Host, r: Record<Key>)
    requires ValidGeneralData6(host, r)
    ensures AllMeet(host, Keys6, Rule, r)
  {
  }

  lemma ValidGeneralData7Sound(host: Host, r: Record<Key>)
    requires AllMeet(host, Keys7, Rule, r)
    ensures ValidGeneralData7(host, r)
  {
    assert banheiros_chuveiro in Keys7 && banheiros_vasos_funcionais in Keys7 &&
      salas_climatizadas in Keys7 && energia in Keys7;
  }

  lemma ValidGeneralData7Complete(host: Host, r: Record<Key>)
    requires ValidGeneralData7(host, r)
    ensures AllMeet(host, Keys7, Rule, r)
  {
  }

  lemma ValidGeneralData8Sound(host: Host, r: Record<Key>)
    requires AllMeet(host, Keys8, Rule, r)
    ensures ValidGeneralData8(host, r)
  {
    assert transformador in Keys8 && rede_eletrica_atende in Keys8 &&
      problemas_eletricos in Keys8 && estrutura_climatizacao in Keys8;
  }

  lemma ValidGeneralData8Complete(host: Host, r: Record<Key>)
    requires ValidGeneralData8(host, r)
    ensures AllMeet(host, Keys8, Rule, r)
  {
  }

  lemma ValidGeneralData9Sound(host: Host, r: Record<Key>)
    requires AllMeet(host, Keys9, Rule, r)
    ensures ValidGeneralData9(host, r)
  {
    assert suporta_novos_equipamentos in Keys9 && cameras_funcionamento in Keys9 &&
      cameras_cobrem in Keys9;
  }

  lemma ValidGeneralData9Complete(host: Host, r: Record<Key>)
    requires ValidGeneralData9(host, r)
    ensures AllMeet(host, Keys9, Rule, r)
  {
  }

  /** The schema accepts a record exactly when it is valid general data. */
  lemma GeneralDataAccepts(host: Host, r: Record<Key>)
    ensures Parse(host, GeneralData, r).Ok? <==> ValidGeneralData(host, r)
  {
    ParseShapeOf(host, Keys, Rule, r);
    AllMeetUnion(host, Keys1, Keys2, Rule, r);
    AllMeetUnion(host, Keys1 + Keys2, Keys3, Rule, r);
    AllMeetUnion(host, Keys1 + Keys2 + Keys3, Keys4, Rule, r);
    AllMeetUnion(host, Keys1 + Keys2 + Keys3 + Keys4, Keys5, Rule, r);
    AllMeetUnion(host, Keys1 + Keys2 + Keys3 + Keys4 + Keys5, Keys6, Rule, r);
    AllMeetUnion(host, Keys1 + Keys2 + Keys3 + Keys4 + Keys5 + Keys6, Keys7, Rule, r);
    AllMeetUnion(host, Keys1 + Keys2 + Keys3 + Keys4 + Keys5 + Keys6 + Keys7, Keys8, Rule, r);
    AllMeetUnion(host, Keys1 + Keys2 + Keys3 + Keys4 + Keys5 + Keys6 + Keys7 + Keys8, Keys9, Rule, r);
    if ValidGeneralData1(host, r) { ValidGeneralData1Complete(host, r); }
    if AllMeet(host, Keys1, Rule, r) { ValidGeneralData1Sound(host, r); }
    if ValidGeneralData2(host, r) { ValidGeneralData2Complete(host, r); }
    if AllMeet(host, Keys2, Rule, r) { ValidGeneralData2Sound(host, r); }
    if ValidGeneralData3(host, r) { ValidGeneralData3Complete(host, r); }
    if AllMeet(host, Keys3, Rule, r) { ValidGeneralData3Sound(host, r); }
    if ValidGeneralData4(host, r) { ValidGeneralData4Complete(host, r); }
    if AllMeet(host, Keys4, Rule, r) { ValidGeneralData4Sound(host, r); }
    if ValidGeneralData5(host, r) { ValidGeneralData5Complete(host, r); }
    if AllMeet(host, Keys5, Rule, r) { ValidGeneralData5Sound(host, r); }
    if ValidGeneralData6(host, r) { ValidGeneralData6Complete(host, r); }
    if AllMeet(host, Keys6, Rule, r) { ValidGeneralData6Sound(host, r); }
    if ValidGeneralData7(host, r) { ValidGeneralData7Complete(host, r); }
    if AllMeet(host, Keys7, Rule, r) { ValidGeneralData7Sound(host, r); }
    if ValidGeneralData8(host, r) { ValidGeneralData8Complete(host, r); }
    if AllMeet(host, Keys8, Rule, r) { ValidGeneralData8Sound(host, r); }
    if ValidGeneralData9(host, r) { ValidGeneralData9Complete(host, r); }
    if AllMeet(host, Keys9, Rule, r) { ValidGeneralData9Sound(host, r); }
  }

  /** The six counts the step requires. */
  const RequiredCounts: set<Key> :=
    {qtd_salas_aula, total_alunos, banheiros_alunos, banheiros_prof, banheiros_chuveiro, salas_climatizadas}

  /** Each of them is a required `numberSchema` field. */
  lemma RequiredCountRule(k: Key)
    requires k in RequiredCounts
    ensures k in GeneralData && GeneralData[k] == Required(NaNAsZero)
  {
    assert k in Keys && Rule(k) == Required(NaNAsZero);
  }

  /** A required count that is not a number fails, whatever the `NaN`-to-0 transform was meant to do. */
  lemma CountNotANumber(host: Host, r: Record<Key>, k: Key)
    requires k in RequiredCounts && Coerce(host, Lookup(r, k)).None?
    ensures Parse(host, GeneralData, r).Err?
    ensures k in Parse(host, GeneralData, r).error
  {
    RequiredCountRule(k);
    FailureReported(host, GeneralData, r, k);
  }

  /** A missing required count fails: `undefined` coerces to `NaN`. */
  lemma CountRequired(host: Host, r: Record<Key>, k: Key)
    requires k in RequiredCounts && k !in r
    ensures Parse(host, GeneralData, r).Err?
    ensures k in Parse(host, GeneralData, r).error
  {
    CountNotANumber(host, r, k);
  }

  /** The annex question is a required Sim or Não, the annex count an optional `numberSchema` field. */
  lemma AnnexRules()
    ensures possui_anexos in GeneralData && GeneralData[possui_anexos] == Required(OneOf(YesNo))
    ensures qtd_anexos in GeneralData && GeneralData[qtd_anexos] == Optional(NaNAsZero)
  {
  }

  /** The annex count may be left out even when the school has annexes: no rule ties the two. */
  lemma AnnexCountIndependent(host: Host, r: Record<Key>)
    requires Parse(host, GeneralData, r).Ok?
    ensures Parse(host, GeneralData, (r - {qtd_anexos})[possui_anexos := JString("Sim")]).Ok?
  {
    AnnexRules();
    RemoveKeepsPassing(host, GeneralData, r, {qtd_anexos});
    SetKeepsPassing(host, GeneralData, r - {qtd_anexos}, possui_anexos, JString("Sim"));
  }
}
