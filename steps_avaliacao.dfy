/** `avaliacaoSchema` of the rating step. */
module AvaliacaoStep {
  import opened Wrappers
  import opened JsonValues
  import opened Zod

  const AvaliacaoOpcoes: seq<string> := ["Ruim", "Regular", "Bom", "Excelente"]

  /** The schema's field names. */
  datatype Key =
    | avaliacao_merendeiras | avaliacao_portaria | avaliacao_limpeza | avaliacao_comunicacao
    | avaliacao_supervisao

  const Keys1: set<Key> := {
    avaliacao_merendeiras, avaliacao_portaria, avaliacao_limpeza, avaliacao_comunicacao
  }
  const Keys2: set<Key> := {
    avaliacao_supervisao
  }
  const Keys: set<Key> := Keys1 + Keys2

  function Rule(k: Key): Field {
    match k
    case avaliacao_merendeiras => Required(OneOf(AvaliacaoOpcoes))
    case avaliacao_portaria => Required(OneOf(AvaliacaoOpcoes))
    case avaliacao_limpeza => Required(OneOf(AvaliacaoOpcoes))
    case avaliacao_comunicacao => Required(OneOf(AvaliacaoOpcoes))
    case avaliacao_supervisao => Required(OneOf(AvaliacaoOpcoes))
  }

  const Avaliacao: Shape<Key> := ShapeOf(Keys, Rule)

  /** A valid rating record: all five services rated with one of the four grades. */
  predicate ValidAvaliacao(r: Record<Key>) {
    ValidAvaliacao1(r) && ValidAvaliacao2(r)
  }

  predicate ValidAvaliacao1(r: Record<Key>) {
    && IsOneOf(r, avaliacao_merendeiras, AvaliacaoOpcoes)
    && IsOneOf(r, avaliacao_portaria, AvaliacaoOpcoes)
    && IsOneOf(r, avaliacao_limpeza, AvaliacaoOpcoes)
    && IsOneOf(r, avaliacao_comunicacao, AvaliacaoOpcoes)
  }

  predicate ValidAvaliacao2(r: Record<Key>) {
    && IsOneOf(r, avaliacao_supervisao, AvaliacaoOpcoes)
  }

  lemma ValidAvaliacao1Sound(host: Host, r: Record<Key>)
    requires AllMeet(host, Keys1, Rule, r)
    ensures ValidAvaliacao1(r)
  {
    assert avaliacao_merendeiras in Keys1 && avaliacao_portaria in Keys1 &&
      avaliacao_limpeza in Keys1 && avaliacao_comunicacao in Keys1;
  }

  lemma ValidAvaliacao1Complete(host: Host, r: Record<Key>)
    requires ValidAvaliacao1(r)
    ensures AllMeet(host, Keys1, Rule, r)
  {
  }

  lemma ValidAvaliacao2Sound(host: Host, r: Record<Key>)
    requires AllMeet(host, Keys2, Rule, r)
    ensures ValidAvaliacao2(r)
  {
    assert avaliacao_supervisao in Keys2;
  }

  lemma ValidAvaliacao2Complete(host: Host, r: Record<Key>)
    requires ValidAvaliacao2(r)
    ensures AllMeet(host, Keys2, Rule, r)
  {
  }

  /** The schema accepts a record exactly when it is a valid rating record. */
  lemma AvaliacaoAccepts(host: Host, r: Record<Key>)
    ensures Parse(host, Avaliacao, r).Ok? <==> ValidAvaliacao(r)
  {
    ParseShapeOf(host, Keys, Rule, r);
    AllMeetUnion(host, Keys1, Keys2, Rule, r);
    if ValidAvaliacao1(r) { ValidAvaliacao1Complete(host, r); }
    if AllMeet(host, Keys1, Rule, r) { ValidAvaliacao1Sound(host, r); }
    if ValidAvaliacao2(r) { ValidAvaliacao2Complete(host, r); }
    if AllMeet(host, Keys2, Rule, r) { ValidAvaliacao2Sound(host, r); }
  }

  /** Any combination of the four grades passes, each service rated on its own. */
  lemma AnyGradesPass(host: Host, a: string, b: string, c: string, d: string, e: string)
    requires a in AvaliacaoOpcoes && b in AvaliacaoOpcoes && c in AvaliacaoOpcoes
    requires d in AvaliacaoOpcoes && e in AvaliacaoOpcoes
    ensures Parse(host, Avaliacao, map[avaliacao_merendeiras := JString(a), avaliacao_portaria := JString(b),
                                       avaliacao_limpeza := JString(c), avaliacao_comunicacao := JString(d),
                                       avaliacao_supervisao := JString(e)]).Ok?
  {
    AvaliacaoAccepts(host, map[avaliacao_merendeiras := JString(a), avaliacao_portaria := JString(b),
                               avaliacao_limpeza := JString(c), avaliacao_comunicacao := JString(d),
                               avaliacao_supervisao := JString(e)]);
  }

  /** A grade outside the four, such as `Ótimo`, fails. */
  lemma OtherGradeFails(host: Host, r: Record<Key>, k: Key)
    ensures Parse(host, Avaliacao, r[k := JString("Ótimo")]).Err?
    ensures k in Parse(host, Avaliacao, r[k := JString("Ótimo")]).error
  {
    GradeRule(k);
    FailureReported(host, Avaliacao, r[k := JString("Ótimo")], k);
  }

  /** Every service is a required grade from the four. */
  lemma GradeRule(k: Key)
    ensures k in Avaliacao && Avaliacao[k] == Required(OneOf(AvaliacaoOpcoes))
  {
  }
}
