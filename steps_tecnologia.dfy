/** `tecnologiaSchema` of the technology step, whose counts default to 0. */
module TecnologiaStep {
  import opened Wrappers
  import opened JsonValues
  import opened Zod

  const Provedores: seq<string> := ["Prodepa", "Starlink", "Outro"]
  const Qualidades: seq<string> := [
    "A internet não funciona ou está indisponível com frequência",
    "A internet apresenta lentidão frequente e compromete as atividades",
    "A internet possui velocidade aceitável, com eventuais oscilações",
    "A internet é estável e atende plenamente às necessidades da escola",
    "Não sei avaliar",
    "Não se aplica"
  ]

  /** The schema's field names. */
  datatype Key =
    | internet_disponivel | provedor_internet | qualidade_internet | qtd_desktop_adm
    | qtd_desktop_alunos | qtd_notebooks | qtd_chromebooks | computadores_atendem
    | qtd_computadores_inoperantes | possui_projetor | qtd_projetores | possui_lousa_digital

  const Keys1: set<Key> := {
    internet_disponivel, provedor_internet, qualidade_internet, qtd_desktop_adm
  }
  const Keys2: set<Key> := {
    qtd_desktop_alunos, qtd_notebooks, qtd_chromebooks, computadores_atendem
  }
  const Keys3: set<Key> := {
    qtd_computadores_inoperantes, possui_projetor, qtd_projetores, possui_lousa_digital
  }
  const Keys: set<Key> := Keys1 + Keys2 + Keys3

  function Rule(k: Key): Field {
    match k
    case internet_disponivel => Required(OneOf(YesNo))
    case provedor_internet => Optional(OneOf(Provedores))
    case qualidade_internet => Optional(OneOf(Qualidades))
    case qtd_desktop_adm => Default(Coerced(true), JNumber(Zero))
    case qtd_desktop_alunos => Default(Coerced(true), JNumber(Zero))
    case qtd_notebooks => Default(Coerced(true), JNumber(Zero))
    case qtd_chromebooks => Default(Coerced(true), JNumber(Zero))
    case computadores_atendem => Required(OneOf(YesPartlyNo))
    case qtd_computadores_inoperantes => Default(Coerced(true), JNumber(Zero))
    case possui_projetor => Required(OneOf(YesNo))
    case qtd_projetores => Default(Coerced(true), JNumber(Zero))
    case possui_lousa_digital => Required(OneOf(YesNo))
  }

  const Tecnologia: Shape<Key> := ShapeOf(Keys, Rule)

  /**
   * A valid technology record: internet, projector and digital board
   * answered Sim or Não, computer adequacy from its three answers, the
   * provider and quality from their lists when present, and the six counts
   * numbers that are not negative when present.
   */
  predicate ValidTecnologia(host: Host, r: Record<Key>) {
    ValidTecnologia1(host, r) && ValidTecnologia2(host, r) && ValidTecnologia3(host, r)
  }

  predicate ValidTecnologia1(host: Host, r: Record<Key>) {
    && IsOneOf(r, internet_disponivel, YesNo)
    && OneOfOrAbsent(r, provedor_internet, Provedores)
    && OneOfOrAbsent(r, qualidade_internet, Qualidades)
    && NumberOrAbsent(host, r, qtd_desktop_adm, true)
  }

  predicate ValidTecnologia2(host: Host, r: Record<Key>) {
    && NumberOrAbsent(host, r, qtd_desktop_alunos, true)
    && NumberOrAbsent(host, r, qtd_notebooks, true)
    && NumberOrAbsent(host, r, qtd_chromebooks, true)
    && IsOneOf(r, computadores_atendem, YesPartlyNo)
  }

  predicate ValidTecnologia3(host: Host, r: Record<Key>) {
    && NumberOrAbsent(host, r, qtd_computadores_inoperantes, true)
    && IsOneOf(r, possui_projetor, YesNo)
    && NumberOrAbsent(host, r, qtd_projetores, true)
    && IsOneOf(r, possui_lousa_digital, YesNo)
  }

  lemma ValidTecnologia1Sound(host: Host, r: Record<Key>)
    requires AllMeet(host, Keys1, Rule, r)
    ensures ValidTecnologia1(host, r)
  {
    assert internet_disponivel in Keys1 && provedor_internet in Keys1 &&
      qualidade_internet in Keys1 && qtd_desktop_adm in Keys1;
  }

  lemma ValidTecnologia1Complete(host: Host, r: Record<Key>)
    requires ValidTecnologia1(host, r)
    ensures AllMeet(host, Keys1, Rule, r)
  {
  }

  lemma ValidTecnologia2Sound(host: Host, r: Record<Key>)
    requires AllMeet(host, Keys2, Rule, r)
    ensures ValidTecnologia2(host, r)
  {
    assert qtd_desktop_alunos in Keys2 && qtd_notebooks in Keys2 && qtd_chromebooks in Keys2 &&
      computadores_atendem in Keys2;
  }

  lemma ValidTecnologia2Complete(host: Host, r: Record<Key>)
    requires ValidTecnologia2(host, r)
    ensures AllMeet(host, Keys2, Rule, r)
  {
  }

  lemma ValidTecnologia3Sound(host: Host, r: Record<Key>)
    requires AllMeet(host, Keys3, Rule, r)
    ensures ValidTecnologia3(host, r)
  {
    assert qtd_computadores_inoperantes in Keys3 && possui_projetor in Keys3 &&
      qtd_projetores in Keys3 && possui_lousa_digital in Keys3;
  }

  lemma ValidTecnologia3Complete(host: Host, r: Record<Key>)
    requires ValidTecnologia3(host, r)
    ensures AllMeet(host, Keys3, Rule, r)
  {
  }

  /** The schema accepts a record exactly when it is a valid technology record. */
  lemma TecnologiaAccepts(host: Host, r: Record<Key>)
    ensures Parse(host, Tecnologia, r).Ok? <==> ValidTecnologia(host, r)
  {
    ParseShapeOf(host, Keys, Rule, r);
    AllMeetUnion(host, Keys1, Keys2, Rule, r);
    AllMeetUnion(host, Keys1 + Keys2, Keys3, Rule, r);
    if ValidTecnologia1(host, r) { ValidTecnologia1Complete(host, r); }
    if AllMeet(host, Keys1, Rule, r) { ValidTecnologia1Sound(host, r); }
    if ValidTecnologia2(host, r) { ValidTecnologia2Complete(host, r); }
    if AllMeet(host, Keys2, Rule, r) { ValidTecnologia2Sound(host, r); }
    if ValidTecnologia3(host, r) { ValidTecnologia3Complete(host, r); }
    if AllMeet(host, Keys3, Rule, r) { ValidTecnologia3Sound(host, r); }
  }

  /** The six counts a parsed record always carries. */
  const Counts: set<Key> :=
    {qtd_desktop_adm, qtd_desktop_alunos, qtd_notebooks, qtd_chromebooks, qtd_computadores_inoperantes, qtd_projetores}

  /** Each count defaults to 0 and is otherwise a number that is not negative. */
  lemma CountRule(k: Key)
    requires k in Counts
    ensures k in Tecnologia && Tecnologia[k] == Default(Coerced(true), JNumber(Zero))
  {
  }

  /** A record that passes comes out with all six counts, 0 for each one left out. */
  lemma CountsFilled(host: Host, r: Record<Key>, k: Key)
    requires Parse(host, Tecnologia, r).Ok? && k in Counts
    ensures k in Parse(host, Tecnologia, r).value
    ensures k !in r ==> Parse(host, Tecnologia, r).value[k] == JNumber(Zero)
  {
    CountRule(k);
    DefaultsFilled(host, Tecnologia, r, k);
  }

  /** The projector question is a required Sim or Não. */
  lemma ProjectorRule()
    ensures possui_projetor in Tecnologia && Tecnologia[possui_projetor] == Required(OneOf(YesNo))
  {
  }

  /** Any count that is not negative is accepted even when the school has no projector. */
  lemma ProjectorCountIndependent(host: Host, r: Record<Key>, n: Number)
    requires Parse(host, Tecnologia, r).Ok? && !IsNegative(n)
    ensures Parse(host, Tecnologia, r[qtd_projetores := JNumber(n)][possui_projetor := JString("Não")]).Ok?
  {
    CountRule(qtd_projetores);
    ProjectorRule();
    SetKeepsPassing(host, Tecnologia, r, qtd_projetores, JNumber(n));
    SetKeepsPassing(host, Tecnologia, r[qtd_projetores := JNumber(n)], possui_projetor, JString("Não"));
  }
}
