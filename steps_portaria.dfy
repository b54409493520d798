/** `portariaSchema` of the gatehouse step. */
module PortariaStep {
  import opened Wrappers
  import opened JsonValues
  import opened Zod

  /** The schema's field names. */
  datatype Key =
    | possui_guarita | possui_botao_panico | controle_portao | iluminacao_externa
    | qtd_agentes_portaria | qtd_atende_necessidade_portaria | quantitativo_necessario_portaria
    | empresa_terceirizada_portaria | possui_supervisor_portaria | nome_supervisor_portaria
    | contato_supervisor_portaria

  const Keys1: set<Key> := {
    possui_guarita, possui_botao_panico, controle_portao, iluminacao_externa
  }
  const Keys2: set<Key> := {
    qtd_agentes_portaria, qtd_atende_necessidade_portaria, quantitativo_necessario_portaria,
    empresa_terceirizada_portaria
  }
  const Keys3: set<Key> := {
    possui_supervisor_portaria, nome_supervisor_portaria, contato_supervisor_portaria
  }
  const Keys: set<Key> := Keys1 + Keys2 + Keys3

  function Rule(k: Key): Field {
    match k
    case possui_guarita => Required(Text(1, None))
    case possui_botao_panico => Optional(Text(0, None))
    case controle_portao => Optional(Text(0, None))
    case iluminacao_externa => Optional(Text(0, None))
    case qtd_agentes_portaria => Required(Coerced(false))
    case qtd_atende_necessidade_portaria => Required(Text(1, None))
    case quantitativo_necessario_portaria => Optional(Coerced(false))
    case empresa_terceirizada_portaria => Optional(Text(0, None))
    case possui_supervisor_portaria => Optional(Text(0, None))
    case nome_supervisor_portaria => Optional(Text(0, None))
    case contato_supervisor_portaria => Optional(Text(0, None))
  }

  const Portaria: Shape<Key> := ShapeOf(Keys, Rule)

  /**
   * A valid gatehouse record: the guard-house and staff-adequacy questions
   * answered, a number of agents of any sign, the number needed a number
   * when present, and every other field a string when present.
   */
  predicate ValidPortaria(host: Host, r: Record<Key>) {
    ValidPortaria1(host, r) && ValidPortaria2(host, r) && ValidPortaria3(host, r)
  }

  predicate ValidPortaria1(host: Host, r: Record<Key>) {
    && TextAtLeast(r, possui_guarita, 1)
    && TextOrAbsent(r, possui_botao_panico)
    && TextOrAbsent(r, controle_portao)
    && TextOrAbsent(r, iluminacao_externa)
  }

  predicate ValidPortaria2(host: Host, r: Record<Key>) {
    && NumberField(host, r, qtd_agentes_portaria, false)
    && TextAtLeast(r, qtd_atende_necessidade_portaria, 1)
    && NumberOrAbsent(host, r, quantitativo_necessario_portaria, false)
    && TextOrAbsent(r, empresa_terceirizada_portaria)
  }

  predicate ValidPortaria3(host: Host, r: Record<Key>) {
    && TextOrAbsent(r, possui_supervisor_portaria)
    && TextOrAbsent(r, nome_supervisor_portaria)
    && TextOrAbsent(r, contato_supervisor_portaria)
  }

  lemma ValidPortaria1Sound(host: Host, r: Record<Key>)
    requires AllMeet(host, Keys1, Rule, r)
    ensures ValidPortaria1(host, r)
  {
    assert possui_guarita in Keys1 && possui_botao_panico in Keys1 && controle_portao in Keys1 &&
      iluminacao_externa in Keys1;
  }

  lemma ValidPortaria1Complete(host: Host, r: Record<Key>)
    requires ValidPortaria1(host, r)
    ensures AllMeet(host, Keys1, Rule, r)
  {
  }

  lemma ValidPortaria2Sound(host: Host, r: Record<Key>)
    requires AllMeet(host, Keys2, Rule, r)
    ensures ValidPortaria2(host, r)
  {
    assert qtd_agentes_portaria in Keys2 && qtd_atende_necessidade_portaria in Keys2 &&
      quantitativo_necessario_portaria in Keys2 && empresa_terceirizada_portaria in Keys2;
  }

  lemma ValidPortaria2Complete(host: Host, r: Record<Key>)
    requires ValidPortaria2(host, r)
    ensures AllMeet(host, Keys2, Rule, r)
  {
  }

  lemma ValidPortaria3Sound(host: Host, r: Record<Key>)
    requires AllMeet(host, Keys3, Rule, r)
    ensures ValidPortaria3(host, r)
  {
    assert possui_supervisor_portaria in Keys3 && nome_supervisor_portaria in Keys3 &&
      contato_supervisor_portaria in Keys3;
  }

  lemma ValidPortaria3Complete(host: Host, r: Record<Key>)
    requires ValidPortaria3(host, r)
    ensures AllMeet(host, Keys3, Rule, r)
  {
  }

  /** The schema accepts a record exactly when it is a valid gatehouse record. */
  lemma PortariaAccepts(host: Host, r: Record<Key>)
    ensures Parse(host, Portaria, r).Ok? <==> ValidPortaria(host, r)
  {
    ParseShapeOf(host, Keys, Rule, r);
    AllMeetUnion(host, Keys1, Keys2, Rule, r);
    AllMeetUnion(host, Keys1 + Keys2, Keys3, Rule, r);
    if ValidPortaria1(host, r) { ValidPortaria1Complete(host, r); }
    if AllMeet(host, Keys1, Rule, r) { ValidPortaria1Sound(host, r); }
    if ValidPortaria2(host, r) { ValidPortaria2Complete(host, r); }
    if AllMeet(host, Keys2, Rule, r) { ValidPortaria2Sound(host, r); }
    if ValidPortaria3(host, r) { ValidPortaria3Complete(host, r); }
    if AllMeet(host, Keys3, Rule, r) { ValidPortaria3Sound(host, r); }
  }

  /** The number needed may be left out whatever the adequacy answer. */
  lemma NeededIndependent(host: Host, r: Record<Key>, answer: string)
    requires Parse(host, Portaria, r).Ok? && answer != ""
    ensures Parse(host, Portaria, (r - {quantitativo_necessario_portaria})[qtd_atende_necessidade_portaria := JString(answer)]).Ok?
  {
    NeededRules();
    var r' := r - {quantitativo_necessario_portaria};
    RemoveKeepsPassing(host, Portaria, r, {quantitativo_necessario_portaria});
    SetKeepsPassing(host, Portaria, r', qtd_atende_necessidade_portaria, JString(answer));
  }

  /** The adequacy answer is a required non-empty string, the number needed an optional number of any sign. */
  lemma NeededRules()
    ensures qtd_atende_necessidade_portaria in Portaria && Portaria[qtd_atende_necessidade_portaria] == Required(Text(1, None))
    ensures quantitativo_necessario_portaria in Portaria && Portaria[quantitativo_necessario_portaria] == Optional(Coerced(false))
  {
  }
}
