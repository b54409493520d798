/**
 * `census-schema.ts`: the eleven section schemas of the single census form
 * and `censusFormSchema`, the object spread of their shapes.  The sections
 * share no field name, so a field name is modelled as its section's tag
 * applied to the name within the section.
 */
module CensusSchema {
  import opened Wrappers
  import opened JsonValues
  import opened Zod

  /** `bomRegularRuim`: the six condition grades of the kitchen and its appliances. */
  const BomRegularRuim: seq<string> := ["Bom", "Regular", "Ruim", "Inoperante", "Excelente", "Precária"]

  const Zonas: seq<string> := ["Urbana", "Rural", "Ribeirinha"]
  const TiposPredio: seq<string> := ["Próprio", "Alugado", "Compartilhado", "Cedido"]
  const MuroCerca: seq<string> := ["Sim, muro", "Sim, cerca", "Sim, ambos", "Não possui"]
  const Perimetro: seq<string> := ["Sim, totalmente", "Parcialmente", "Não"]
  const SituacoesEstrutura: seq<string> := [
    "Necessita de reforma geral",
    "Necessita de reforma parcial (melhoria pontual)",
    "Reforma em andamento",
    "Está em reforma, porém a obra está parada",
    "Foi reformada recentemente"
  ]
  const VasosFuncionais: seq<string> := ["Todos", "Alguns", "Nenhum"]
  const Energia: seq<string> := ["Concessionária - Equatorial", "Geração própria", "Outro"]
  const Climatizacao: seq<string> := [
    "Sim",
    "Não, somente com adequações",
    "Não, todas as salas são climatizadas"
  ]
  const Cameras: seq<string> := ["Sim, funcionando plenamente", "Sim, parcialmente", "Não possui"]
  const TamanhosCozinha: seq<string> := ["Pequena", "Média", "Grande"]
  const MerendaRegular: seq<string> := ["Sim", "Sim, com falhas", "Não"]
  const MerendaQualidade: seq<string> := ["Sim", "Regular", "Ruim"]
  const EpisExtintor: seq<string> := ["Completo", "Parcial", "Inexistente"]
  const ValidadeExtintores: seq<string> := ["Está na validade", "Validade vencida"]
  const ControlesPortao: seq<string> := ["Manual", "Fechadura", "Eletrônica"]
  const Iluminacao: seq<string> := ["Adequada", "Regular", "Insuficiente"]
  const Provedores: seq<string> := ["Prodepa", "Starlink", "Outro"]
  const RecursosProdep: seq<string> := ["Sim", "Não", "Não sabe informar"]
  const Execucao: seq<string> := ["Sim, totalmente", "Parcialmente", "Não executados"]
  const Pendencias: seq<string> := ["Não", "Sim, em regularização", "Sim, pendente/atrasada"]
  const Reunioes: seq<string> := [
    "Não ocorrem",
    "Eventuais (1–2 por ano)",
    "Regulares (semestrais)",
    "Frequentes (mensais ou mais)"
  ]
  const Bullying: seq<string> := [
    "Sim, formalizada e aplicada",
    "Parcialmente (ações pontuais)",
    "Não possui"
  ]
  const Notas: seq<string> := ["Ruim", "Regular", "Bom", "Excelente"]

  /** The field names of `identificationSchema`. */
  datatype IdentificationKey =
    | nome_escola | codigo_inep | cnpj | endereco | telefone | municipio | cep | zona
    | nome_diretor | matricula_diretor | contato_diretor | dre | turnos

  function IdentificationRule(k: IdentificationKey): Field {
    match k
    case nome_escola => Required(Text(1, None))
    case codigo_inep => Required(Text(8, None))
    case cnpj => Optional(Text(0, None))
    case endereco => Required(Text(1, None))
    case telefone => Optional(Text(0, None))
    case municipio => Required(Text(1, None))
    case cep => Optional(Text(0, None))
    case zona => Required(OneOf(Zonas))
    case nome_diretor => Optional(Text(0, None))
    case matricula_diretor => Optional(Text(0, None))
    case contato_diretor => Optional(Text(0, None))
    case dre => Required(Text(1, None))
    case turnos => Optional(TextList(0))
  }

  /** The field names of `generalDataSchema`. */
  datatype GeneralDataKey =
    | tipo_predio | possui_anexos | qtd_anexos | tipo_predio_anexo | etapas_ofertadas
    | modalidades_ofertadas | turmas_manha | turmas_tarde | turmas_noite | total_alunos
    | alunos_pcd | alunos_rural | alunos_urbana | muro_cerca | perimetro_fechado
    | situacao_estrutura | data_ultima_reforma | ambientes | quadra_coberta | qtd_quadras
    | banda_fanfarra | banheiros_alunos | banheiros_prof | banheiros_chuveiro
    | banheiros_vasos_funcionais | salas_climatizadas | energia | transformador
    | rede_eletrica_atende | problemas_eletricos | estrutura_climatizacao
    | suporta_novos_equipamentos | cameras_funcionamento | cameras_cobrem

  /** Every field of `generalDataSchema` is `.optional()`; this is the rule it wraps. */
  function GeneralDataBase(k: GeneralDataKey): Base {
    match k
    case tipo_predio => OneOf(TiposPredio)
    case possui_anexos => OneOf(YesNo)
    case qtd_anexos => Coerced(false)
    case tipo_predio_anexo => OneOf(TiposPredio)
    case etapas_ofertadas => TextList(0)
    case modalidades_ofertadas => TextList(0)
    case turmas_manha => Coerced(false)
    case turmas_tarde => Coerced(false)
    case turmas_noite => Coerced(false)
    case total_alunos => Coerced(false)
    case alunos_pcd => Coerced(false)
    case alunos_rural => Coerced(false)
    case alunos_urbana => Coerced(false)
    case muro_cerca => OneOf(MuroCerca)
    case perimetro_fechado => OneOf(Perimetro)
    case situacao_estrutura => OneOf(SituacoesEstrutura)
    case data_ultima_reforma => Text(0, None)
    case ambientes => TextList(0)
    case quadra_coberta => OneOf(YesNo)
    case qtd_quadras => Coerced(false)
    case banda_fanfarra => OneOf(YesNo)
    case banheiros_alunos => Coerced(false)
    case banheiros_prof => Coerced(false)
    case banheiros_chuveiro => Coerced(false)
    case banheiros_vasos_funcionais => OneOf(VasosFuncionais)
    case salas_climatizadas => Coerced(false)
    case energia => OneOf(Energia)
    case transformador => OneOf(YesNo)
    case rede_eletrica_atende => OneOf(YesPartlyNo)
    case problemas_eletricos => TextList(0)
    case estrutura_climatizacao => OneOf(Climatizacao)
    case suporta_novos_equipamentos => OneOf(YesPartlyNo)
    case cameras_funcionamento => OneOf(Cameras)
    case cameras_cobrem => OneOf(YesPartlyNo)
  }

  /** The field names of `foodSchema`. */
  datatype FoodKey =
    | cozinha_condicao | cozinha_tamanho | merenda_regular | merenda_qualidade | merenda_atende
    | possui_refeitorio | refeitorio_atende | possui_balanca | freezers_qtd | freezers_estado
    | geladeiras_qtd | geladeiras_estado | fogoes_qtd | fogoes_estado | fornos_qtd | fornos_estado
    | bebedouros_qtd | bebedouros_estado | bancadas_inox | exaustao | despensa_exclusiva
    | deposito_conserva | epis_extintor | extintores_validade | merendeiras_estatutaria
    | merendeiras_terceirizada | merendeiras_temporaria | merendeiras_atende | empresa_merendeiras
    | supervisor_merenda | nome_supervisor_merenda

  /** Every field of `foodSchema` is `.optional()`; this is the rule it wraps. */
  function FoodBase(k: FoodKey): Base {
    match k
    case cozinha_condicao => OneOf(BomRegularRuim)
    case cozinha_tamanho => OneOf(TamanhosCozinha)
    case merenda_regular => OneOf(MerendaRegular)
    case merenda_qualidade => OneOf(MerendaQualidade)
    case merenda_atende => OneOf(YesPartlyNo)
    case possui_refeitorio => OneOf(YesNo)
    case refeitorio_atende => OneOf(YesNo)
    case possui_balanca => OneOf(YesNo)
    case freezers_qtd => Coerced(false)
    case freezers_estado => OneOf(BomRegularRuim)
    case geladeiras_qtd => Coerced(false)
    case geladeiras_estado => OneOf(BomRegularRuim)
    case fogoes_qtd => Coerced(false)
    case fogoes_estado => OneOf(BomRegularRuim)
    case fornos_qtd => Coerced(false)
    case fornos_estado => OneOf(BomRegularRuim)
    case bebedouros_qtd => Coerced(false)
    case bebedouros_estado => OneOf(BomRegularRuim)
    case bancadas_inox => OneOf(YesNo)
    case exaustao => OneOf(YesNo)
    case despensa_exclusiva => OneOf(YesNo)
    case deposito_conserva => OneOf(YesPartlyNo)
    case epis_extintor => OneOf(EpisExtintor)
    case extintores_validade => OneOf(ValidadeExtintores)
    case merendeiras_estatutaria => Coerced(false)
    case merendeiras_terceirizada => Coerced(false)
    case merendeiras_temporaria => Coerced(false)
    case merendeiras_atende => OneOf(YesNo)
    case empresa_merendeiras => Text(0, None)
    case supervisor_merenda => OneOf(YesNo)
    case nome_supervisor_merenda => Text(0, None)
  }

  /** The field names of `cleaningSchema`. */
  datatype CleaningKey =
    | sg_efetivo | sg_temporario | sg_terceirizado | sg_atende | sg_necessario | empresa_sg
    | supervisor_sg | nome_supervisor_sg

  /** Every field of `cleaningSchema` is `.optional()`; this is the rule it wraps. */
  function CleaningBase(k: CleaningKey): Base {
    match k
    case sg_efetivo => Coerced(false)
    case sg_temporario => Coerced(false)
    case sg_terceirizado => Coerced(false)
    case sg_atende => OneOf(YesNo)
    case sg_necessario => Coerced(false)
    case empresa_sg => Text(0, None)
    case supervisor_sg => OneOf(YesNo)
    case nome_supervisor_sg => Text(0, None)
  }

  /** The field names of `securitySchema`. */
  datatype SecurityKey =
    | possui_guarita | controle_portao | iluminacao_externa | botao_panico | portaria_qtd
    | portaria_atende | portaria_necessario | empresa_portaria | supervisor_portaria
    | nome_supervisor_portaria

  /** Every field of `securitySchema` is `.optional()`; this is the rule it wraps. */
  function SecurityBase(k: SecurityKey): Base {
    match k
    case possui_guarita => OneOf(YesNo)
    case controle_portao => OneOf(ControlesPortao)
    case iluminacao_externa => OneOf(Iluminacao)
    case botao_panico => OneOf(YesNo)
    case portaria_qtd => Coerced(false)
    case portaria_atende => OneOf(YesNo)
    case portaria_necessario => Coerced(false)
    case empresa_portaria => Text(0, None)
    case supervisor_portaria => OneOf(YesNo)
    case nome_supervisor_portaria => Text(0, None)
  }

  /** The field names of `techSchema`. */
  datatype TechKey =
    | internet_disponivel | provedor | internet_qualidade | pc_admin | pc_alunos | notebooks
    | chromebooks | pc_atende | pc_inoperantes | projetor | projetor_qtd | lousa_digital

  /** Every field of `techSchema` is `.optional()`; this is the rule it wraps. */
  function TechBase(k: TechKey): Base {
    match k
    case internet_disponivel => OneOf(YesNo)
    case provedor => OneOf(Provedores)
    case internet_qualidade => Text(0, None)
    case pc_admin => Coerced(false)
    case pc_alunos => Coerced(false)
    case notebooks => Coerced(false)
    case chromebooks => Coerced(false)
    case pc_atende => OneOf(YesPartlyNo)
    case pc_inoperantes => Coerced(false)
    case projetor => OneOf(YesNo)
    case projetor_qtd => Coerced(false)
    case lousa_digital => OneOf(YesNo)
  }

  /** The field names of `staffSchema`. */
  datatype StaffKey =
    | possui_direcao | possui_vice_pedagogico | possui_vice_admin | possui_secretario
    | possui_coord_pedagogico | qtd_coord_pedagogico | coord_area_mat | coord_area_ling
    | coord_area_hum | coord_area_nat | professores_efetivos | professores_temporarios
    | servidores_admin | prof_readaptado | prof_readaptado_qtd

  /** Every field of `staffSchema` is `.optional()`; this is the rule it wraps. */
  function StaffBase(k: StaffKey): Base {
    match k
    case possui_direcao => OneOf(YesNo)
    case possui_vice_pedagogico => OneOf(YesNo)
    case possui_vice_admin => OneOf(YesNo)
    case possui_secretario => OneOf(YesNo)
    case possui_coord_pedagogico => OneOf(YesNo)
    case qtd_coord_pedagogico => Coerced(false)
    case coord_area_mat => OneOf(YesNo)
    case coord_area_ling => OneOf(YesNo)
    case coord_area_hum => OneOf(YesNo)
    case coord_area_nat => OneOf(YesNo)
    case professores_efetivos => Coerced(false)
    case professores_temporarios => Coerced(false)
    case servidores_admin => Coerced(false)
    case prof_readaptado => OneOf(YesNo)
    case prof_readaptado_qtd => Coerced(false)
  }

  /** The field names of `studentsSchema`. */
  datatype StudentsKey =
    | beneficiarios | taxa_abandono | reprovacao_fund1 | reprovacao_fund2 | reprovacao_medio
    | ideb_iniciais | ideb_finais | ideb_medio

  /** Every field of `studentsSchema` is `.optional()`; this is the rule it wraps. */
  function StudentsBase(k: StudentsKey): Base {
    match k
    case beneficiarios => Coerced(false)
    case taxa_abandono => Coerced(false)
    case reprovacao_fund1 => Coerced(false)
    case reprovacao_fund2 => Coerced(false)
    case reprovacao_medio => Coerced(false)
    case ideb_iniciais => Coerced(false)
    case ideb_finais => Coerced(false)
    case ideb_medio => Coerced(false)
  }

  /** The field names of `managementSchema`. */
  datatype ManagementKey =
    | regularizada_cee | conselho_escolar | conselho_ativo | recursos_prodep | prodep_valor
    | prodep_execucao | prodep_pendencia | recursos_federais | federal_valor | federal_execucao
    | federal_pendencia | gremio | reunioes_comunidade | plano_evacuacao | bullying

  /** Every field of `managementSchema` is `.optional()`; this is the rule it wraps. */
  function ManagementBase(k: ManagementKey): Base {
    match k
    case regularizada_cee => OneOf(YesNo)
    case conselho_escolar => OneOf(YesNo)
    case conselho_ativo => OneOf(YesPartlyNo)
    case recursos_prodep => OneOf(RecursosProdep)
    case prodep_valor => Text(0, None)
    case prodep_execucao => OneOf(Execucao)
    case prodep_pendencia => OneOf(Pendencias)
    case recursos_federais => OneOf(YesNo)
    case federal_valor => Text(0, None)
    case federal_execucao => OneOf(Execucao)
    case federal_pendencia => OneOf(Pendencias)
    case gremio => OneOf(YesNo)
    case reunioes_comunidade => OneOf(Reunioes)
    case plano_evacuacao => OneOf(YesNo)
    case bullying => OneOf(Bullying)
  }

  /** The field names of `ratingSchema`. */
  datatype RatingKey =
    | nota_merendeiras | nota_portaria | nota_limpeza | nota_comunicacao | nota_supervisao

  /** Every field of `ratingSchema` is `.optional()`; this is the rule it wraps. */
  function RatingBase(k: RatingKey): Base {
    match k
    case nota_merendeiras => OneOf(Notas)
    case nota_portaria => OneOf(Notas)
    case nota_limpeza => OneOf(Notas)
    case nota_comunicacao => OneOf(Notas)
    case nota_supervisao => OneOf(Notas)
  }

  /** The field names of `observationsSchema`. */
  datatype ObservationsKey =
    | prioridades | demanda_urgente | descricao_urgencia | sugestao_melhoria | descricao_sugestao
    | responsavel_nome | responsavel_cargo | responsavel_matricula | declaracao_verdadeira

  function ObservationsRule(k: ObservationsKey): Field {
    match k
    case prioridades => Optional(Text(0, None))
    case demanda_urgente => Optional(OneOf(YesNo))
    case descricao_urgencia => Optional(Text(0, None))
    case sugestao_melhoria => Optional(OneOf(YesNo))
    case descricao_sugestao => Optional(Text(0, None))
    case responsavel_nome => Required(Text(1, None))
    case responsavel_cargo => Optional(Text(0, None))
    case responsavel_matricula => Optional(Text(0, None))
    case declaracao_verdadeira => Required(MustBeTrue)
  }

  /** A field name of the census form: the section and the name within it. */
  datatype Key =
    | Identification(identification: IdentificationKey)
    | GeneralData(generalData: GeneralDataKey)
    | Food(food: FoodKey)
    | Cleaning(cleaning: CleaningKey)
    | Security(security: SecurityKey)
    | Tech(tech: TechKey)
    | Staff(staff: StaffKey)
    | Students(students: StudentsKey)
    | Management(management: ManagementKey)
    | Rating(rating: RatingKey)
    | Observations(observations: ObservationsKey)

  /** The rule each field name has in its section's schema. */
  function Rule(k: Key): Field {
    match k
    case Identification(i) => IdentificationRule(i)
    case GeneralData(g) => Optional(GeneralDataBase(g))
    case Food(f) => Optional(FoodBase(f))
    case Cleaning(c) => Optional(CleaningBase(c))
    case Security(s) => Optional(SecurityBase(s))
    case Tech(t) => Optional(TechBase(t))
    case Staff(s) => Optional(StaffBase(s))
    case Students(s) => Optional(StudentsBase(s))
    case Management(m) => Optional(ManagementBase(m))
    case Rating(r) => Optional(RatingBase(r))
    case Observations(o) => ObservationsRule(o)
  }

  const IdentificationKeys1: set<Key> := {
    Identification(nome_escola), Identification(codigo_inep), Identification(cnpj),
    Identification(endereco)
  }
  const IdentificationKeys2: set<Key> := {
    Identification(telefone), Identification(municipio), Identification(cep), Identification(zona)
  }
  const IdentificationKeys3: set<Key> := {
    Identification(nome_diretor), Identification(matricula_diretor),
    Identification(contato_diretor), Identification(dre)
  }
  const IdentificationKeys4: set<Key> := {
    Identification(turnos)
  }
  const IdentificationKeys: set<Key> := IdentificationKeys1 + IdentificationKeys2 + IdentificationKeys3 + IdentificationKeys4

  const GeneralDataNames: set<GeneralDataKey> := {
    tipo_predio, possui_anexos, qtd_anexos, tipo_predio_anexo, etapas_ofertadas,
    modalidades_ofertadas, turmas_manha, turmas_tarde, turmas_noite, total_alunos, alunos_pcd,
    alunos_rural, alunos_urbana, muro_cerca, perimetro_fechado, situacao_estrutura,
    data_ultima_reforma, ambientes, quadra_coberta, qtd_quadras, banda_fanfarra, banheiros_alunos,
    banheiros_prof, banheiros_chuveiro, banheiros_vasos_funcionais, salas_climatizadas, energia,
    transformador, rede_eletrica_atende, problemas_eletricos, estrutura_climatizacao,
    suporta_novos_equipamentos, cameras_funcionamento, cameras_cobrem
  }
  const GeneralDataKeys: set<Key> := set k | k in GeneralDataNames :: GeneralData(k)

  const FoodNames: set<FoodKey> := {
    cozinha_condicao, cozinha_tamanho, merenda_regular, merenda_qualidade, merenda_atende,
    possui_refeitorio, refeitorio_atende, possui_balanca, freezers_qtd, freezers_estado,
    geladeiras_qtd, geladeiras_estado, fogoes_qtd, fogoes_estado, fornos_qtd, fornos_estado,
    bebedouros_qtd, bebedouros_estado, bancadas_inox, exaustao, despensa_exclusiva,
    deposito_conserva, epis_extintor, extintores_validade, merendeiras_estatutaria,
    merendeiras_terceirizada, merendeiras_temporaria, merendeiras_atende, empresa_merendeiras,
    supervisor_merenda, nome_supervisor_merenda
  }
  const FoodKeys: set<Key> := set k | k in FoodNames :: Food(k)

  const CleaningNames: set<CleaningKey> := {
    sg_efetivo, sg_temporario, sg_terceirizado, sg_atende, sg_necessario, empresa_sg,
    supervisor_sg, nome_supervisor_sg
  }
  const CleaningKeys: set<Key> := set k | k in CleaningNames :: Cleaning(k)

  const SecurityNames: set<SecurityKey> := {
    possui_guarita, controle_portao, iluminacao_externa, botao_panico, portaria_qtd,
    portaria_atende, portaria_necessario, empresa_portaria, supervisor_portaria,
    nome_supervisor_portaria
  }
  const SecurityKeys: set<Key> := set k | k in SecurityNames :: Security(k)

  const TechNames: set<TechKey> := {
    internet_disponivel, provedor, internet_qualidade, pc_admin, pc_alunos, notebooks, chromebooks,
    pc_atende, pc_inoperantes, projetor, projetor_qtd, lousa_digital
  }
  const TechKeys: set<Key> := set k | k in TechNames :: Tech(k)

  const StaffNames: set<StaffKey> := {
    possui_direcao, possui_vice_pedagogico, possui_vice_admin, possui_secretario,
    possui_coord_pedagogico, qtd_coord_pedagogico, coord_area_mat, coord_area_ling, coord_area_hum,
    coord_area_nat, professores_efetivos, professores_temporarios, servidores_admin,
    prof_readaptado, prof_readaptado_qtd
  }
  const StaffKeys: set<Key> := set k | k in StaffNames :: Staff(k)

  const StudentsNames: set<StudentsKey> := {
    beneficiarios, taxa_abandono, reprovacao_fund1, reprovacao_fund2, reprovacao_medio,
    ideb_iniciais, ideb_finais, ideb_medio
  }
  const StudentsKeys: set<Key> := set k | k in StudentsNames :: Students(k)

  const ManagementNames: set<ManagementKey> := {
    regularizada_cee, conselho_escolar, conselho_ativo, recursos_prodep, prodep_valor,
    prodep_execucao, prodep_pendencia, recursos_federais, federal_valor, federal_execucao,
    federal_pendencia, gremio, reunioes_comunidade, plano_evacuacao, bullying
  }
  const ManagementKeys: set<Key> := set k | k in ManagementNames :: Management(k)

  const RatingNames: set<RatingKey> := {
    nota_merendeiras, nota_portaria, nota_limpeza, nota_comunicacao, nota_supervisao
  }
  const RatingKeys: set<Key> := set k | k in RatingNames :: Rating(k)

  const ObservationsKeys1: set<Key> := {
    Observations(prioridades), Observations(demanda_urgente), Observations(descricao_urgencia),
    Observations(sugestao_melhoria)
  }
  const ObservationsKeys2: set<Key> := {
    Observations(descricao_sugestao), Observations(responsavel_nome),
    Observations(responsavel_cargo), Observations(responsavel_matricula)
  }
  const ObservationsKeys3: set<Key> := {
    Observations(declaracao_verdadeira)
  }
  const ObservationsKeys: set<Key> := ObservationsKeys1 + ObservationsKeys2 + ObservationsKeys3

  /** `identificationSchema`. */
  const IdentificationSchema: Shape<Key> := ShapeOf(IdentificationKeys, Rule)
  /** `generalDataSchema`. */
  const GeneralDataSchema: Shape<Key> := ShapeOf(GeneralDataKeys, Rule)
  /** `foodSchema`. */
  const FoodSchema: Shape<Key> := ShapeOf(FoodKeys, Rule)
  /** `cleaningSchema`. */
  const CleaningSchema: Shape<Key> := ShapeOf(CleaningKeys, Rule)
  /** `securitySchema`. */
  const SecuritySchema: Shape<Key> := ShapeOf(SecurityKeys, Rule)
  /** `techSchema`. */
  const TechSchema: Shape<Key> := ShapeOf(TechKeys, Rule)
  /** `staffSchema`. */
  const StaffSchema: Shape<Key> := ShapeOf(StaffKeys, Rule)
  /** `studentsSchema`. */
  const StudentsSchema: Shape<Key> := ShapeOf(StudentsKeys, Rule)
  /** `managementSchema`. */
  const ManagementSchema: Shape<Key> := ShapeOf(ManagementKeys, Rule)
  /** `ratingSchema`. */
  const RatingSchema: Shape<Key> := ShapeOf(RatingKeys, Rule)
  /** `observationsSchema`. */
  const ObservationsSchema: Shape<Key> := ShapeOf(ObservationsKeys, Rule)

  /** The name sets of the sections, in the order `censusFormSchema` spreads them. */
  const SectionKeys: seq<set<Key>> := [
    IdentificationKeys, GeneralDataKeys, FoodKeys, CleaningKeys, SecurityKeys, TechKeys, StaffKeys,
    StudentsKeys, ManagementKeys, RatingKeys, ObservationsKeys
  ]

  /** The section schemas, in the same order: `Sections[i]` is the shape of `SectionKeys[i]`. */
  const Sections: seq<Shape<Key>> :=
    seq(|SectionKeys|, i requires 0 <= i < |SectionKeys| => ShapeOf(SectionKeys[i], Rule))

  /** `censusFormSchema`: the spread of the eleven sections' shapes. */
  const CensusFormSchema: Shape<Key> := SpreadAll(Sections)

  /**
   * A valid identification: school name, address, municipality and DRE
   * non-empty strings, an INEP code of at least 8 characters, a known zone,
   * the CNPJ, phone, CEP and principal's name, registration and contact
   * strings when present, and the shifts a list of strings when present.
   */
  predicate ValidIdentification(r: Record<Key>) {
    ValidIdentification1(r) && ValidIdentification2(r) && ValidIdentification3(r) && ValidIdentification4(r)
  }

  predicate ValidIdentification1(r: Record<Key>) {
    && TextAtLeast(r, Identification(nome_escola), 1)
    && TextAtLeast(r, Identification(codigo_inep), 8)
    && TextOrAbsent(r, Identification(cnpj))
    && TextAtLeast(r, Identification(endereco), 1)
  }

  lemma ValidIdentification1Sound(host: Host, r: Record<Key>)
    requires AllMeet(host, IdentificationKeys1, Rule, r)
    ensures ValidIdentification1(r)
  {
    assert Identification(nome_escola) in IdentificationKeys1 &&
      Identification(codigo_inep) in IdentificationKeys1 &&
      Identification(cnpj) in IdentificationKeys1 &&
      Identification(endereco) in IdentificationKeys1;
  }

  lemma ValidIdentification1Complete(host: Host, r: Record<Key>)
    requires ValidIdentification1(r)
    ensures AllMeet(host, IdentificationKeys1, Rule, r)
  {
  }

  predicate ValidIdentification2(r: Record<Key>) {
    && TextOrAbsent(r, Identification(telefone))
    && TextAtLeast(r, Identification(municipio), 1)
    && TextOrAbsent(r, Identification(cep))
    && IsOneOf(r, Identification(zona), Zonas)
  }

  lemma ValidIdentification2Sound(host: Host, r: Record<Key>)
    requires AllMeet(host, IdentificationKeys2, Rule, r)
    ensures ValidIdentification2(r)
  {
    assert Identification(telefone) in IdentificationKeys2 &&
      Identification(municipio) in IdentificationKeys2 &&
      Identification(cep) in IdentificationKeys2 && Identification(zona) in IdentificationKeys2;
  }

  lemma ValidIdentification2Complete(host: Host, r: Record<Key>)
    requires ValidIdentification2(r)
    ensures AllMeet(host, IdentificationKeys2, Rule, r)
  {
  }

  predicate ValidIdentification3(r: Record<Key>) {
    && TextOrAbsent(r, Identification(nome_diretor))
    && TextOrAbsent(r, Identification(matricula_diretor))
    && TextOrAbsent(r, Identification(contato_diretor))
    && TextAtLeast(r, Identification(dre), 1)
  }

  lemma ValidIdentification3Sound(host: Host, r: Record<Key>)
    requires AllMeet(host, IdentificationKeys3, Rule, r)
    ensures ValidIdentification3(r)
  {
    assert Identification(nome_diretor) in IdentificationKeys3 &&
      Identification(matricula_diretor) in IdentificationKeys3 &&
      Identification(contato_diretor) in IdentificationKeys3 &&
      Identification(dre) in IdentificationKeys3;
  }

  lemma ValidIdentification3Complete(host: Host, r: Record<Key>)
    requires ValidIdentification3(r)
    ensures AllMeet(host, IdentificationKeys3, Rule, r)
  {
  }

  predicate ValidIdentification4(r: Record<Key>) {
    && TextListOrAbsent(r, Identification(turnos))
  }

  lemma ValidIdentification4Sound(host: Host, r: Record<Key>)
    requires AllMeet(host, IdentificationKeys4, Rule, r)
    ensures ValidIdentification4(r)
  {
    assert Identification(turnos) in IdentificationKeys4;
  }

  lemma ValidIdentification4Complete(host: Host, r: Record<Key>)
    requires ValidIdentification4(r)
    ensures AllMeet(host, IdentificationKeys4, Rule, r)
  {
  }

  /** A record passes `identificationSchema` exactly when it is valid in the sense above. */
  lemma IdentificationAccepts(host: Host, r: Record<Key>)
    ensures Parse(host, IdentificationSchema, r).Ok? <==> ValidIdentification(r)
  {
    ParseShapeOf(host, IdentificationKeys, Rule, r);
    AllMeetUnion(host, IdentificationKeys1, IdentificationKeys2, Rule, r);
    AllMeetUnion(host, IdentificationKeys1 + IdentificationKeys2, IdentificationKeys3, Rule, r);
    AllMeetUnion(host, IdentificationKeys1 + IdentificationKeys2 + IdentificationKeys3, IdentificationKeys4, Rule, r);
    if ValidIdentification1(r) { ValidIdentification1Complete(host, r); }
    if AllMeet(host, IdentificationKeys1, Rule, r) { ValidIdentification1Sound(host, r); }
    if ValidIdentification2(r) { ValidIdentification2Complete(host, r); }
    if AllMeet(host, IdentificationKeys2, Rule, r) { ValidIdentification2Sound(host, r); }
    if ValidIdentification3(r) { ValidIdentification3Complete(host, r); }
    if AllMeet(host, IdentificationKeys3, Rule, r) { ValidIdentification3Sound(host, r); }
    if ValidIdentification4(r) { ValidIdentification4Complete(host, r); }
    if AllMeet(host, IdentificationKeys4, Rule, r) { ValidIdentification4Sound(host, r); }
  }

  /**
   * A valid closing section: a non-empty name of the person responsible,
   * the declaration exactly `true`, the urgent-demand and suggestion
   * answers Sim or Não when present, and the priorities, descriptions,
   * role and registration strings when present.
   */
  predicate ValidObservations(r: Record<Key>) {
    ValidObservations1(r) && ValidObservations2(r) && ValidObservations3(r)
  }

  predicate ValidObservations1(r: Record<Key>) {
    && TextOrAbsent(r, Observations(prioridades))
    && OneOfOrAbsent(r, Observations(demanda_urgente), YesNo)
    && TextOrAbsent(r, Observations(descricao_urgencia))
    && OneOfOrAbsent(r, Observations(sugestao_melhoria), YesNo)
  }

  lemma ValidObservations1Sound(host: Host, r: Record<Key>)
    requires AllMeet(host, ObservationsKeys1, Rule, r)
    ensures ValidObservations1(r)
  {
    assert Observations(prioridades) in ObservationsKeys1 &&
      Observations(demanda_urgente) in ObservationsKeys1 &&
      Observations(descricao_urgencia) in ObservationsKeys1 &&
      Observations(sugestao_melhoria) in ObservationsKeys1;
  }

  lemma ValidObservations1Complete(host: Host, r: Record<Key>)
    requires ValidObservations1(r)
    ensures AllMeet(host, ObservationsKeys1, Rule, r)
  {
  }

  predicate ValidObservations2(r: Record<Key>) {
    && TextOrAbsent(r, Observations(descricao_sugestao))
    && TextAtLeast(r, Observations(responsavel_nome), 1)
    && TextOrAbsent(r, Observations(responsavel_cargo))
    && TextOrAbsent(r, Observations(responsavel_matricula))
  }

  lemma ValidObservations2Sound(host: Host, r: Record<Key>)
    requires AllMeet(host, ObservationsKeys2, Rule, r)
    ensures ValidObservations2(r)
  {
    assert Observations(descricao_sugestao) in ObservationsKeys2 &&
      Observations(responsavel_nome) in ObservationsKeys2 &&
      Observations(responsavel_cargo) in ObservationsKeys2 &&
      Observations(responsavel_matricula) in ObservationsKeys2;
  }

  lemma ValidObservations2Complete(host: Host, r: Record<Key>)
    requires ValidObservations2(r)
    ensures AllMeet(host, ObservationsKeys2, Rule, r)
  {
  }

  predicate ValidObservations3(r: Record<Key>) {
    && IsTrue(r, Observations(declaracao_verdadeira))
  }

  lemma ValidObservations3Sound(host: Host, r: Record<Key>)
    requires AllMeet(host, ObservationsKeys3, Rule, r)
    ensures ValidObservations3(r)
  {
    assert Observations(declaracao_verdadeira) in ObservationsKeys3;
  }

  lemma ValidObservations3Complete(host: Host, r: Record<Key>)
    requires ValidObservations3(r)
    ensures AllMeet(host, ObservationsKeys3, Rule, r)
  {
  }

  /** A record passes `observationsSchema` exactly when it is valid in the sense above. */
  lemma ObservationsAccepts(host: Host, r: Record<Key>)
    ensures Parse(host, ObservationsSchema, r).Ok? <==> ValidObservations(r)
  {
    ParseShapeOf(host, ObservationsKeys, Rule, r);
    AllMeetUnion(host, ObservationsKeys1, ObservationsKeys2, Rule, r);
    AllMeetUnion(host, ObservationsKeys1 + ObservationsKeys2, ObservationsKeys3, Rule, r);
    if ValidObservations1(r) { ValidObservations1Complete(host, r); }
    if AllMeet(host, ObservationsKeys1, Rule, r) { ValidObservations1Sound(host, r); }
    if ValidObservations2(r) { ValidObservations2Complete(host, r); }
    if AllMeet(host, ObservationsKeys2, Rule, r) { ValidObservations2Sound(host, r); }
    if ValidObservations3(r) { ValidObservations3Complete(host, r); }
    if AllMeet(host, ObservationsKeys3, Rule, r) { ValidObservations3Sound(host, r); }
  }

  /** The INEP code is a required string of at least 8 characters. */
  lemma InepRule()
    ensures Identification(codigo_inep) in IdentificationSchema
    ensures IdentificationSchema[Identification(codigo_inep)] == Required(Text(8, None))
  {
  }

  /**
   * In a passing identification, any INEP code of 8 or more characters
   * keeps it passing and any shorter one fails it: longer codes are not
   * refused.
   */
  lemma InepAtLeastEight(host: Host, r: Record<Key>, code: string)
    requires Parse(host, IdentificationSchema, r).Ok?
    ensures Parse(host, IdentificationSchema, r[Identification(codigo_inep) := JString(code)]).Ok? <==> |code| >= 8
  {
    InepRule();
    if |code| >= 8 {
      SetKeepsPassing(host, IdentificationSchema, r, Identification(codigo_inep), JString(code));
    } else {
      FailureReported(host, IdentificationSchema, r[Identification(codigo_inep) := JString(code)], Identification(codigo_inep));
    }
  }

  /** The name of the person responsible is a required non-empty string, the declaration a required `true`. */
  lemma ResponsibleRules()
    ensures Observations(responsavel_nome) in ObservationsSchema
    ensures ObservationsSchema[Observations(responsavel_nome)] == Required(Text(1, None))
    ensures Observations(declaracao_verdadeira) in ObservationsSchema
    ensures ObservationsSchema[Observations(declaracao_verdadeira)] == Required(MustBeTrue)
  {
  }

  /** Anything but `true` as the declaration fails the closing section, reported against the declaration. */
  lemma DeclarationRequired(host: Host, r: Record<Key>, v: JValue)
    requires v != JBool(true)
    ensures Parse(host, ObservationsSchema, r[Observations(declaracao_verdadeira) := v]).Err?
    ensures Observations(declaracao_verdadeira) in Parse(host, ObservationsSchema, r[Observations(declaracao_verdadeira) := v]).error
  {
    ResponsibleRules();
    FailureReported(host, ObservationsSchema, r[Observations(declaracao_verdadeira) := v], Observations(declaracao_verdadeira));
  }

  /** A missing or empty name of the person responsible fails the closing section, reported against the name. */
  lemma ResponsibleNameRequired(host: Host, r: Record<Key>)
    requires !TextAtLeast(r, Observations(responsavel_nome), 1)
    ensures Parse(host, ObservationsSchema, r).Err?
    ensures Observations(responsavel_nome) in Parse(host, ObservationsSchema, r).error
  {
    ResponsibleRules();
    FailureReported(host, ObservationsSchema, r, Observations(responsavel_nome));
  }

  /** `bomRegularRuim` accepts `undefined` and exactly six strings. */
  lemma BomRegularRuimAccepts(host: Host, v: Option<JValue>)
    ensures !CheckField(host, Optional(OneOf(BomRegularRuim)), v).Invalid? <==>
      v.None? || v.value in {JString("Bom"), JString("Regular"), JString("Ruim"),
                             JString("Inoperante"), JString("Excelente"), JString("Precária")}
  {
  }

  /** The kitchen's condition and the five appliances' conditions are `bomRegularRuim` fields. */
  lemma ConditionFields(k: FoodKey)
    requires k in {cozinha_condicao, freezers_estado, geladeiras_estado, fogoes_estado, fornos_estado, bebedouros_estado}
    ensures Food(k) in FoodSchema && FoodSchema[Food(k)] == Optional(OneOf(BomRegularRuim))
  {
    assert k in FoodNames;
  }

  /** A field of one of the nine sections between identification and observations. */
  predicate Middle(k: Key) {
    !k.Identification? && !k.Observations?
  }

  /** Every middle field is `.optional()`. */
  lemma MiddleRulesOptional(k: Key)
    requires Middle(k)
    ensures Rule(k).Optional?
  {
  }

  /** The sections between the first and the last hold middle fields only. */
  lemma MiddleSectionKeys(i: int, k: Key)
    requires 1 <= i < 10 && k in SectionKeys[i]
    ensures Middle(k)
  {
  }

  /** So those nine sections leave every field optional. */
  lemma MiddleSectionsOptional(i: int)
    requires 1 <= i < 10
    ensures AllOptional(Sections[i])
    ensures forall k :: k in Sections[i] ==> Middle(k)
  {
    forall k | k in Sections[i] ensures Sections[i][k].Optional? && Middle(k) {
      assert k in SectionKeys[i];
      MiddleSectionKeys(i, k);
      MiddleRulesOptional(k);
    }
  }

  /** So `{}` passes each of them, and comes out as `{}`. */
  lemma EmptyPassesMiddleSections(host: Host, i: int)
    requires 1 <= i < 10
    ensures Parse(host, Sections[i], map[]) == Ok(map[])
  {
    MiddleSectionsOptional(i);
    EmptyPassesOptional(host, Sections[i]);
  }

  /** Each section is the shape of its names under their rules. */
  lemma SectionsAreShapes()
    ensures |Sections| == |SectionKeys| == 11
    ensures forall i :: 0 <= i < |SectionKeys| ==> Sections[i] == ShapeOf(SectionKeys[i], Rule)
  {
  }

  /**
   * The spread gives the census form exactly the names of the eleven
   * sections, each with the rule of the one section that declares it.
   */
  lemma CensusFormShape()
    ensures CensusFormSchema == ShapeOf(UnionAll(SectionKeys), Rule)
  {
    SectionsAreShapes();
    SpreadShapesOf(SectionKeys, Rule, Sections);
  }

  /** The census form passes exactly when every section passes. */
  lemma CensusFormAccepts(host: Host, r: Record<Key>)
    ensures Parse(host, CensusFormSchema, r).Ok? <==> forall i :: 0 <= i < |Sections| ==> Parse(host, Sections[i], r).Ok?
  {
    CensusFormShape();
    SectionsAreShapes();
    ParseUnionAll(host, SectionKeys, Rule, r);
    var all := ShapeOf(UnionAll(SectionKeys), Rule);
    assert Parse(host, CensusFormSchema, r) == Parse(host, all, r);
    forall i | 0 <= i < |Sections|
      ensures Parse(host, Sections[i], r) == Parse(host, ShapeOf(SectionKeys[i], Rule), r)
    {
    }
  }

  /** Passing the census form needs a valid identification and a valid closing section. */
  lemma CensusFormNeeds(host: Host, r: Record<Key>)
    requires Parse(host, CensusFormSchema, r).Ok?
    ensures ValidIdentification(r) && ValidObservations(r)
  {
    CensusFormAccepts(host, r);
    assert Parse(host, Sections[0], r).Ok? && Parse(host, Sections[10], r).Ok?;
    IdentificationAccepts(host, r);
    ObservationsAccepts(host, r);
  }

  /** A valid identification and closing section, with nothing else filled in, pass the census form. */
  lemma IdentificationAndObservationsSuffice(host: Host, r: Record<Key>)
    requires ValidIdentification(r) && ValidObservations(r)
    requires forall k :: k in r ==> !Middle(k)
    ensures Parse(host, CensusFormSchema, r).Ok?
  {
    IdentificationAccepts(host, r);
    ObservationsAccepts(host, r);
    forall i | 1 <= i < 10 ensures Parse(host, Sections[i], r).Ok? {
      MiddleSectionsOptional(i);
      AbsentPassesOptional(host, Sections[i], r);
    }
    CensusFormAccepts(host, r);
  }
}
