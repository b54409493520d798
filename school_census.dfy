/** `schoolIdentificationSchema`: the identification step's own rules. */
module SchoolCensus {
  import opened Wrappers
  import opened JsonValues
  import opened Zod

  /** The schema's field names. */
  datatype Key =
    | dre | municipio | nome_escola | codigo_inep | zona | endereco
    | dependencia_administrativa | telefone_institucional | cnpj

  const Keys: set<Key> := {
    dre, municipio, nome_escola, codigo_inep, zona, endereco,
    dependencia_administrativa, telefone_institucional, cnpj
  }

  const Zonas: seq<string> := ["Urbana", "Rural", "Ribeirinha"]

  function Rule(k: Key): Field {
    match k
    case dre => Required(Text(1, None))
    case municipio => Required(Text(1, None))
    case nome_escola => Required(Text(3, None))
    case codigo_inep => Required(Text(0, Some(8)))
    case zona => Required(OneOf(Zonas))
    case endereco => Required(Text(5, None))
    case dependencia_administrativa => Optional(Text(0, None))
    case telefone_institucional => Optional(Text(0, None))
    case cnpj => Optional(Text(0, None))
  }

  const SchoolIdentification: Shape<Key> := ShapeOf(Keys, Rule)

  /**
   * A valid identification: DRE and municipality given, a school name of
   * at least 3 and an address of at least 5 characters, an INEP code of
   * exactly 8 characters (digits or not), a known zone, and the
   * administrative dependency, phone and CNPJ strings when present.
   */
  predicate ValidIdentification(r: Record<Key>) {
    && TextAtLeast(r, dre, 1)
    && TextAtLeast(r, municipio, 1)
    && TextAtLeast(r, nome_escola, 3)
    && TextAtLeast(r, codigo_inep, 0) && |r[codigo_inep].s| == 8
    && IsOneOf(r, zona, Zonas)
    && TextAtLeast(r, endereco, 5)
    && TextOrAbsent(r, dependencia_administrativa)
    && TextOrAbsent(r, telefone_institucional)
    && TextOrAbsent(r, cnpj)
  }

  lemma IdentificationSound(host: Host, r: Record<Key>)
    requires AllMeet(host, Keys, Rule, r)
    ensures ValidIdentification(r)
  {
      assert dre in Keys && municipio in Keys && nome_escola in Keys && codigo_inep in Keys && zona in Keys;
      assert endereco in Keys && dependencia_administrativa in Keys && telefone_institucional in Keys && cnpj in Keys;
  }

  lemma IdentificationComplete(host: Host, r: Record<Key>)
    requires ValidIdentification(r)
    ensures AllMeet(host, Keys, Rule, r)
  {
  }

  lemma IdentificationAccepts(host: Host, r: Record<Key>)
    ensures Parse(host, SchoolIdentification, r).Ok? <==> ValidIdentification(r)
  {
    ParseShapeOf(host, Keys, Rule, r);
    if ValidIdentification(r) { IdentificationComplete(host, r); }
    if AllMeet(host, Keys, Rule, r) { IdentificationSound(host, r); }
  }

  /** The INEP code is a required string of exactly 8 characters. */
  lemma InepRule()
    ensures codigo_inep in SchoolIdentification
    ensures SchoolIdentification[codigo_inep] == Required(Text(0, Some(8)))
  {
  }

  /**
   * In a passing identification, an INEP code of exactly 8 characters keeps
   * it passing and any other length fails it.
   */
  lemma InepExactlyEight(host: Host, r: Record<Key>, code: string)
    requires Parse(host, SchoolIdentification, r).Ok?
    ensures Parse(host, SchoolIdentification, r[codigo_inep := JString(code)]).Ok? <==> |code| == 8
  {
    InepRule();
    if |code| == 8 {
      SetKeepsPassing(host, SchoolIdentification, r, codigo_inep, JString(code));
    } else {
      FailureReported(host, SchoolIdentification, r[codigo_inep := JString(code)], codigo_inep);
    }
  }
}
