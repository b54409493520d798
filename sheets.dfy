/**
 * The spreadsheet side of the census API (`SheetsService`): the locations
 * index read from the sectors sheet, and the flattening of one census
 * submission into one row of the census sheet.  The Google Sheets client is
 * replaced by its observable effect: the rows a read returns are passed in,
 * and the census sheet is a field holding the rows appended so far.
 */
module Sheets {
  import opened Wrappers
  import opened Text
  import opened JsonValues
  import opened JsonText
  import JsonRoundTrip

  datatype SheetsError =
    | LocationsIdMissing   // the locations spreadsheet id is not configured
    | LocationsReadFailed  // the read of the sectors sheet failed
    | CensusIdMissing      // the census spreadsheet id is not configured
    | JsonDecodeFailed     // the census payload is not a JSON object (or null)
    | CensusWriteFailed    // the append to the census sheet failed

  // ---------------------------------------------------------------------
  // Locations index

  /** A row of the sectors sheet, each cell already rendered as text. */
  type Row = seq<string>

  /** region -> municipality -> schools. */
  type Locations = map<string, map<string, seq<string>>>

  datatype Entry = Entry(region: string, municipality: string, school: string)

  /**
   * Row `row` lists school `e.school` of municipality `e.municipality` in
   * region `e.region`: it has more than three cells, and cells 0, 2 and 3,
   * trimmed, are the region, the school and the municipality, none empty.
   * Cell 1 plays no part.
   */
  predicate Qualifies(row: Row, e: Entry) {
    |row| > 3
    && e.region == TrimSpace(row[0]) && e.school == TrimSpace(row[2])
    && e.municipality == TrimSpace(row[3])
    && e.region != "" && e.municipality != "" && e.school != ""
  }

  /** The entry a row contributes, if any. */
  function RowEntry(row: Row): (r: Option<Entry>)
    ensures r.Some? ==> Qualifies(row, r.value)
    ensures r.None? ==> forall e :: !Qualifies(row, e)
  {
    if |row| > 3 then
      var dre := TrimSpace(row[0]);
      var escola := TrimSpace(row[2]);
      var municipio := TrimSpace(row[3]);
      if dre == "" || municipio == "" || escola == "" then None
      else Some(Entry(dre, municipio, escola))
    else None
  }

  /** The schools recorded for a region and municipality (none when absent). */
  function Schools(m: Locations, region: string, municipality: string): seq<string> {
    if region in m && municipality in m[region] then m[region][municipality] else []
  }

  predicate Listed(m: Locations, e: Entry) {
    e.school in Schools(m, e.region, e.municipality)
  }

  /** One step of the fold: the school is appended to its list unless already there. */
  function AddEntry(m: Locations, e: Entry): Locations {
    var schools := Schools(m, e.region, e.municipality);
    if e.school in schools then m
    else
      var cities := if e.region in m then m[e.region] else map[];
      m[e.region := cities[e.municipality := schools + [e.school]]]
  }

  /** The effect of one row on the index. */
  function Step(m: Locations, row: Row): Locations {
    match RowEntry(row)
    case None => m
    case Some(e) => AddEntry(m, e)
  }

  /** The index before sorting: the rows folded in order. */
  function Gather(rows: seq<Row>): Locations
    decreases |rows|
  {
    if rows == [] then map[] else Step(Gather(rows[..|rows| - 1]), rows[|rows| - 1])
  }

  function SortCities(cities: map<string, seq<string>>): map<string, seq<string>> {
    map c | c in cities :: SortStrings(cities[c])
  }

  function SortLists(m: Locations): Locations {
    map d | d in m :: SortCities(m[d])
  }

  /** The index `GetLocations` returns for the rows of the sectors sheet. */
  function LocationsOf(rows: seq<Row>): Locations {
    SortLists(Gather(rows))
  }

  /** Every region has a municipality, every list a school, and no list a repetition. */
  predicate WellFormed(m: Locations) {
    forall d :: d in m ==> m[d] != map[] && forall c :: c in m[d] ==> m[d][c] != [] && NoDup(m[d][c])
  }

  lemma AddEntryListed(m: Locations, e: Entry, x: Entry)
    ensures Listed(AddEntry(m, e), x) <==> Listed(m, x) || x == e
  {
    var schools := Schools(m, e.region, e.municipality);
    if e.school !in schools && (x.region != e.region || x.municipality != e.municipality) {
      assert Schools(AddEntry(m, e), x.region, x.municipality) == Schools(m, x.region, x.municipality);
    }
  }

  lemma AddEntryWellFormed(m: Locations, e: Entry)
    requires WellFormed(m)
    ensures WellFormed(AddEntry(m, e))
  {
    var schools := Schools(m, e.region, e.municipality);
    if e.school !in schools {
      var m' := AddEntry(m, e);
      assert NoDup(schools + [e.school]);
      forall d | d in m'
        ensures m'[d] != map[] && forall c :: c in m'[d] ==> m'[d][c] != [] && NoDup(m'[d][c])
      {
        if d == e.region {
          assert e.municipality in m'[d];
        }
      }
    }
  }

  /** A row qualifies for at most one entry: the one it contributes. */
  lemma QualifiesEntry(row: Row, x: Entry)
    ensures Qualifies(row, x) <==> RowEntry(row) == Some(x)
  {
  }

  lemma StepListed(m: Locations, row: Row, x: Entry)
    ensures Listed(Step(m, row), x) <==> Listed(m, x) || Qualifies(row, x)
  {
    QualifiesEntry(row, x);
    match RowEntry(row)
    case None =>
    case Some(e) => AddEntryListed(m, e, x);
  }

  lemma {:induction false} GatherWellFormed(rows: seq<Row>)
    ensures WellFormed(Gather(rows))
    decreases |rows|
  {
    if rows != [] {
      GatherWellFormed(rows[..|rows| - 1]);
      match RowEntry(rows[|rows| - 1])
      case None =>
      case Some(e) => AddEntryWellFormed(Gather(rows[..|rows| - 1]), e);
    }
  }

  /** Some row of `rows` lists `x`. */
  predicate SomeRowLists(rows: seq<Row>, x: Entry) {
    exists i :: 0 <= i < |rows| && Qualifies(rows[i], x)
  }

  lemma SomeRowListsSnoc(rows: seq<Row>, x: Entry)
    requires rows != []
    ensures SomeRowLists(rows, x) <==> SomeRowLists(rows[..|rows| - 1], x) || Qualifies(rows[|rows| - 1], x)
  {
    var init := rows[..|rows| - 1];
    if SomeRowLists(rows, x) {
      var i :| 0 <= i < |rows| && Qualifies(rows[i], x);
      if i < |init| { assert init[i] == rows[i]; }
    }
    if SomeRowLists(init, x) {
      var i :| 0 <= i < |init| && Qualifies(init[i], x);
      assert rows[i] == init[i];
    }
  }

  /** Before sorting, an entry is listed exactly when some row lists it. */
  lemma {:induction false} GatherListed(rows: seq<Row>, x: Entry)
    ensures Listed(Gather(rows), x) <==> SomeRowLists(rows, x)
    decreases |rows|
  {
    if rows != [] {
      GatherListed(rows[..|rows| - 1], x);
      StepListed(Gather(rows[..|rows| - 1]), rows[|rows| - 1], x);
      SomeRowListsSnoc(rows, x);
    }
  }

  /**
   * The locations index lists an entry exactly when some row of the sheet
   * lists it: nothing is lost and nothing is invented.
   */
  lemma LocationsListed(rows: seq<Row>, x: Entry)
    ensures Listed(LocationsOf(rows), x) <==> SomeRowLists(rows, x)
  {
    GatherListed(rows, x);
    GatherWellFormed(rows);
    var m := Gather(rows);
    if x.region in m && x.municipality in m[x.region] {
      SortStrictly(m[x.region][x.municipality]);
    }
  }

  /**
   * Every school list of the index is non-empty, duplicate-free and strictly
   * ascending, and every region has at least one municipality.
   */
  lemma LocationsSorted(rows: seq<Row>, d: string, c: string)
    requires d in LocationsOf(rows)
    ensures LocationsOf(rows)[d] != map[]
    ensures c in LocationsOf(rows)[d] ==> LocationsOf(rows)[d][c] != [] && StrictlySorted(LocationsOf(rows)[d][c])
  {
    GatherWellFormed(rows);
    var m := Gather(rows);
    var c0 :| c0 in m[d];
    assert c0 in LocationsOf(rows)[d];
    if c in m[d] {
      SortStrictly(m[d][c]);
      assert m[d][c][0] in m[d][c];
    }
  }

  /** Two rows agree on every cell except possibly cell 1. */
  predicate SameButSecond(r1: Row, r2: Row) {
    |r1| == |r2| && forall j :: 0 <= j < |r1| && j != 1 ==> r1[j] == r2[j]
  }

  lemma {:induction false} GatherIgnoresSecondColumn(rows1: seq<Row>, rows2: seq<Row>)
    requires |rows1| == |rows2|
    requires forall i :: 0 <= i < |rows1| ==> SameButSecond(rows1[i], rows2[i])
    ensures Gather(rows1) == Gather(rows2)
    decreases |rows1|
  {
    if rows1 != [] {
      var n := |rows1| - 1;
      assert forall i :: 0 <= i < n ==> rows1[..n][i] == rows1[i] && rows2[..n][i] == rows2[i];
      GatherIgnoresSecondColumn(rows1[..n], rows2[..n]);
      var r1, r2 := rows1[n], rows2[n];
      assert SameButSecond(r1, r2);
      if |r1| > 3 {
        assert r1[0] == r2[0] && r1[2] == r2[2] && r1[3] == r2[3];
      }
      assert RowEntry(r1) == RowEntry(r2);
    }
  }

  /** Changing only the second column of the sheet changes nothing in the index. */
  lemma LocationsIgnoreSecondColumn(rows1: seq<Row>, rows2: seq<Row>)
    requires |rows1| == |rows2|
    requires forall i :: 0 <= i < |rows1| ==> SameButSecond(rows1[i], rows2[i])
    ensures LocationsOf(rows1) == LocationsOf(rows2)
  {
    GatherIgnoresSecondColumn(rows1, rows2);
  }

  // ---------------------------------------------------------------------
  // fmt.Sprint of decoded JSON values

  function Zeros(n: nat): (r: string)
    ensures |r| == n
  {
    seq(n, _ => '0')
  }

  /**
   * `%v` of a float64 holding the number: the shortest digits, in `%e` form
   * when the decimal exponent of the leading digit is below -4 or at least
   * 6, in `%f` form otherwise; the exponent has a sign and two digits or more.
   */
  function FormatNumber(n: Number): (r: string)
    ensures r != []
    ensures (r[0] == '-') == IsNegative(n)
  {
    if n.mantissa == 0 then "0"
    else
      var d := NatText(Abs(n.mantissa));
      var x := n.exponent + |d| - 1;
      var sign := if n.mantissa < 0 then "-" else "";
      if x < -4 || x >= 6 then
        var e := NatText(Abs(x));
        sign + d[..1] + (if |d| > 1 then "." + d[1..] else "")
          + "e" + (if x < 0 then "-" else "+") + (if |e| < 2 then "0" + e else e)
      else if n.exponent >= 0 then sign + d + Zeros(n.exponent)
      else if |d| + n.exponent > 0 then
        sign + d[..|d| + n.exponent] + "." + d[|d| + n.exponent..]
      else sign + "0." + Zeros(-(|d| + n.exponent)) + d
  }

  /** The index of the last member with key `k`. */
  function LastIndex(ms: seq<Member>, k: string): (i: int)
    requires HasKey(ms, k)
    ensures 0 <= i < |ms| && ms[i].key == k && IsLastWithKey(ms, i)
    decreases |ms|
  {
    if ms[|ms| - 1].key == k then |ms| - 1
    else
      assert HasKey(ms[..|ms| - 1], k) by {
        var j :| 0 <= j < |ms| && ms[j].key == k;
        assert ms[..|ms| - 1][j] == ms[j];
      }
      var i := LastIndex(ms[..|ms| - 1], k);
      assert ms[i] == ms[..|ms| - 1][i];
      i
  }

  /** The distinct keys of an object's members, ascending: the order `fmt` prints a map in. */
  function SortedKeys(ms: seq<Member>): (ks: seq<string>)
    ensures StrictlySorted(ks)
    ensures forall k :: k in ks <==> HasKey(ms, k)
  {
    var all := seq(|ms|, i requires 0 <= i < |ms| => ms[i].key);
    assert forall k :: k in all <==> HasKey(ms, k) by {
      forall k ensures k in all <==> HasKey(ms, k) {
        if HasKey(ms, k) {
          var i :| 0 <= i < |ms| && ms[i].key == k;
          assert all[i] == k;
        }
      }
    }
    SortStrictly(Distinct(all));
    SortStrings(Distinct(all))
  }

  /**
   * `fmt.Sprint` of a decoded JSON value: strings as they are, `true` and
   * `false`, `<nil>` for null, `[a b]` for an array and `map[k:v ...]` with
   * the keys in ascending order for an object.
   */
  function Render(v: JValue): string
    decreases v
  {
    match v
    case JNull => "<nil>"
    case JBool(b) => if b then "true" else "false"
    case JNumber(n) => FormatNumber(n)
    case JString(s) => s
    case JArray(items) =>
      "[" + Join(seq(|items|, i requires 0 <= i < |items| => Render(items[i])), " ") + "]"
    case JObject(ms) =>
      var ks := SortedKeys(ms);
      var pairs := seq(|ks|, j requires 0 <= j < |ks| =>
        assert HasKey(ms, ks[j]);
        ks[j] + ":" + Render(ms[LastIndex(ms, ks[j])].value));
      "map[" + Join(pairs, " ") + "]"
  }

  function RenderAll(items: seq<JValue>): (r: seq<string>)
    ensures |r| == |items| && forall i :: 0 <= i < |items| ==> r[i] == Render(items[i])
  {
    seq(|items|, i requires 0 <= i < |items| => Render(items[i]))
  }

  // ---------------------------------------------------------------------
  // The census payload and the `val` helper

  /** The census answers, decoded into `map[string]interface{}`. */
  type Payload = map<string, JValue>

  /**
   * `json.Unmarshal` into a map: an object gives its key/value mapping (a
   * repeated key keeps its last value), `null` leaves the map empty, and
   * any other input is an error.
   */
  function DecodePayload(data: string): (r: Option<Payload>)
    ensures r.Some? <==> Parse(data).Some? && (Parse(data).value.JObject? || Parse(data).value.JNull?)
    ensures r.Some? && Parse(data).value.JObject? ==> r.value == ToMap(Parse(data).value.members)
    ensures r.Some? && Parse(data).value.JNull? ==> r.value == map[]
  {
    match Parse(data)
    case Some(JObject(ms)) => Some(ToMap(ms))
    case Some(JNull) => Some(map[])
    case _ => None
  }

  /** A serialized object decodes to its members' mapping. */
  lemma DecodeSerialized(ms: seq<Member>)
    ensures DecodePayload(Serialize(JObject(ms))) == Some(ToMap(ms))
  {
    JsonRoundTrip.ParseSerialize(JObject(ms));
  }

  /**
   * The cell `val(key)` yields: `""` when the key is absent, the items
   * rendered and joined with `", "` when the value is an array, the value
   * itself otherwise.
   */
  function ValueOf(data: Payload, key: string): (r: JValue)
    ensures key !in data ==> r == JString("")
    ensures key in data && data[key].JArray? ==> r == JString(Join(RenderAll(data[key].items), ", "))
    ensures key in data && !data[key].JArray? ==> r == data[key]
  {
    if key !in data then JString("")
    else if data[key].JArray? then JString(Join(RenderAll(data[key].items), ", "))
    else data[key]
  }

  /** `val`: renders an array item by item into a buffer, then joins it. */
  method Val(data: Payload, key: string) returns (r: JValue)
    ensures r == ValueOf(data, key)
  {
    if key !in data {
      return JString("");
    }
    var v := data[key];
    if !v.JArray? {
      return v;
    }
    var arr := v.items;
    var strs := new string[|arr|];
    var i := 0;
    while i < |arr|
      invariant 0 <= i <= |arr|
      invariant forall k :: 0 <= k < i ==> strs[k] == Render(arr[k])
    {
      strs[i] := Render(arr[i]);
      i := i + 1;
    }
    assert strs[..] == RenderAll(arr);
    return JString(Join(strs[..], ", "));
  }

  // ---------------------------------------------------------------------
  // formatJsonField

  /**
   * `json.Unmarshal` into `[]string`: `null` gives the empty list, an array
   * of strings its strings (a `null` item gives `""`), anything else an error.
   */
  function StringList(raw: string): Option<seq<string>> {
    match Parse(raw)
    case Some(JNull) => Some([])
    case Some(JArray(items)) =>
      if forall i :: 0 <= i < |items| ==> items[i].JString? || items[i].JNull? then
        Some(seq(|items|, i requires 0 <= i < |items| => if items[i].JString? then items[i].s else ""))
      else None
    case _ => None
  }

  /**
   * `formatJsonField`: empty input gives `""`; text that decodes as a Go
   * `[]string` (`null`, or a list of strings and nulls, a null item read as
   * `""`) gives its items joined with `", "`; any other text gives the raw
   * text with every leading and trailing `"` removed.
   */
  function FormatJsonField(raw: string): (r: string)
    ensures raw == [] ==> r == []
    ensures raw != [] && StringList(raw).Some? ==> r == Join(StringList(raw).value, ", ")
    ensures raw != [] && StringList(raw).None? ==> r == TrimChar(raw, '"')
    ensures raw != [] && StringList(raw).None? ==> r == [] || (r[0] != '"' && r[|r| - 1] != '"')
  {
    if raw == [] then []
    else match StringList(raw)
      case Some(arr) => Join(arr, ", ")
      case None => TrimSpec(raw, Only('"')); TrimChar(raw, '"')
  }

  /** The items of a list of strings. */
  function StringItems(xs: seq<string>): (items: seq<JValue>)
    ensures |items| == |xs| && forall i :: 0 <= i < |xs| ==> items[i] == JString(xs[i])
  {
    seq(|xs|, i requires 0 <= i < |xs| => JString(xs[i]))
  }

  lemma FormatJsonFieldOfParsed(raw: string, xs: seq<string>)
    requires Parse(raw) == Some(JArray(StringItems(xs)))
    ensures FormatJsonField(raw) == Join(xs, ", ")
  {
    var items := StringItems(xs);
    var strs := seq(|items|, i requires 0 <= i < |items| => if items[i].JString? then items[i].s else "");
    assert strs == xs;
    assert StringList(raw) == Some(xs);
  }

  /** A serialized list of strings is written back as those strings joined with `", "`. */
  lemma FormatJsonFieldOfList(xs: seq<string>)
    ensures FormatJsonField(Serialize(JArray(StringItems(xs)))) == Join(xs, ", ")
  {
    JsonRoundTrip.ParseSerialize(JArray(StringItems(xs)));
    FormatJsonFieldOfParsed(Serialize(JArray(StringItems(xs))), xs);
  }

  // ---------------------------------------------------------------------
  // The census row

  /** The school record fields the row is made from. */
  datatype School = School(
    nomeDiretor: string, matriculaDiretor: string, contatoDiretor: string,
    dre: string, nome: string, inep: string, cnpj: string, endereco: string,
    telefone: string, municipio: string, cep: string, zona: string,
    turnos: string)  // the raw JSON text of the shifts field

  /** The 13 school cells that open every row. */
  function SchoolCells(s: School): (r: seq<JValue>)
    ensures |r| == 13
  {
    [JString(s.nomeDiretor), JString(s.matriculaDiretor), JString(s.contatoDiretor),
     JString(s.dre), JString(s.nome), JString(s.inep), JString(s.cnpj), JString(s.endereco),
     JString(s.telefone), JString(s.municipio), JString(s.cep), JString(s.zona),
     JString(FormatJsonField(s.turnos))]
  }

  /** The answer keys of the columns between the school cells and the priorities cell. */
  const SectionKeys: seq<string> := [
    "tipo_predio", "possui_anexos", "qtd_anexos", "tipo_predio_anexo", "etapas_ofertadas",
    "modalidades_ofertadas", "qtd_salas_aula", "turmas_manha", "turmas_tarde", "turmas_noite",
    "total_alunos", "alunos_pcd", "alunos_rural", "alunos_urbana", "muro_cerca",
    "perimetro_fechado", "situacao_estrutura", "data_ultima_reforma", "ambientes", "quadra_coberta",
    "qtd_quadras", "banda_fanfarra", "banheiros_alunos", "banheiros_prof", "banheiros_chuveiro",
    "banheiros_vasos_funcionais", "salas_climatizadas", "energia", "transformador", "rede_eletrica_atende",
    "problemas_eletricos", "estrutura_climatizacao", "suporta_novos_equipamentos", "cameras_funcionamento", "cameras_cobrem",
    "condicoes_cozinha", "tamanho_cozinha", "oferta_regular", "qualidade_merenda", "atende_necessidades",
    "possui_refeitorio", "refeitorio_adequado", "possui_balanca", "qtd_freezers", "estado_freezers",
    "qtd_geladeiras", "estado_geladeiras", "qtd_fogoes", "estado_fogoes", "qtd_fornos",
    "estado_fornos", "qtd_bebedouros", "estado_bebedouros", "bancadas_inox", "sistema_exaustao",
    "despensa_exclusiva", "deposito_conserva", "estoque_epi_extintor", "manutencao_extintores", "qtd_merendeiras_estatutaria",
    "qtd_merendeiras_terceirizada", "qtd_merendeiras_temporaria", "qtd_atende_necessidade_merenda", "empresa_terceirizada_merenda", "possui_supervisor_merenda",
    "nome_supervisor_merenda", "contato_supervisor_merenda", "qtd_servicos_gerais_efetivo", "qtd_servicos_gerais_temporario", "qtd_servicos_gerais_terceirizado",
    "qtd_atende_necessidade_sg", "quantitativo_necessario_sg", "empresa_terceirizada_sg", "possui_supervisor_sg", "nome_supervisor_sg",
    "contato_supervisor_sg", "possui_guarita", "controle_portao", "iluminacao_externa", "possui_botao_panico",
    "qtd_agentes_portaria", "qtd_atende_necessidade_portaria", "quantitativo_necessario_portaria", "empresa_terceirizada_portaria", "possui_supervisor_portaria",
    "nome_supervisor_portaria", "contato_supervisor_portaria", "internet_disponivel", "provedor_internet", "qualidade_internet",
    "qtd_desktop_adm", "qtd_desktop_alunos", "qtd_notebooks", "qtd_chromebooks", "computadores_atendem",
    "qtd_computadores_inoperantes", "possui_projetor", "qtd_projetores", "possui_lousa_digital", "possui_direcao",
    "possui_vice_pedagogico", "possui_vice_administrativo", "possui_secretario", "possui_coord_pedagogico", "qtd_coord_pedagogico",
    "possui_coord_area_matematica", "possui_coord_area_linguagem", "possui_coord_area_humanas", "possui_coord_area_natureza", "qtd_professores_efetivos",
    "qtd_professores_temporarios", "qtd_servidores_administrativos", "possui_professor_readaptado", "qtd_professor_readaptado", "total_beneficiarios",
    "taxa_abandono", "taxa_reprovacao_fund1", "taxa_reprovacao_fund2", "taxa_reprovacao_medio", "ideb_anos_iniciais",
    "ideb_anos_finais", "ideb_ensino_medio", "regularizada_cee", "conselho_escolar", "conselho_ativo",
    "recursos_prodep", "valor_prodep", "execucao_prodep", "pendencias_prodep", "recursos_federais",
    "valor_federais", "execucao_federais", "pendencias_federais", "gremio_estudantil", "reunioes_comunidade",
    "plano_evacuacao", "politica_bullying", "avaliacao_merendeiras", "avaliacao_portaria", "avaliacao_limpeza",
    "avaliacao_comunicacao", "avaliacao_supervisao"]

  const PriorityKeys: seq<string> := ["prioridade_1", "prioridade_2", "prioridade_3"]

  /** The answer keys of the columns after the priorities cell. */
  const ClosingKeys: seq<string> := [
    "demanda_urgente", "descricao_urgencia", "sugestao_melhoria", "descricao_sugestao",
    "nome_responsavel", "cargo_funcao", "matricula_funcional", "declaracao_verdadeira"]

  /** Every answer key the row reads. */
  const RowKeys: seq<string> := SectionKeys + PriorityKeys + ClosingKeys

  /** 13 school cells, 142 answers, the priorities cell and 8 closing answers. */
  const RowWidth: nat := 164

  function ValCells(data: Payload, keys: seq<string>): (r: seq<JValue>)
    ensures |r| == |keys| && forall i :: 0 <= i < |keys| ==> r[i] == ValueOf(data, keys[i])
  {
    seq(|keys|, i requires 0 <= i < |keys| => ValueOf(data, keys[i]))
  }

  /** `"1. p1 | 2. p2 | 3. p3"`, each priority printed with `%v`. */
  function PrioritiesCell(data: Payload): string {
    "1. " + Render(ValueOf(data, "prioridade_1"))
      + " | 2. " + Render(ValueOf(data, "prioridade_2"))
      + " | 3. " + Render(ValueOf(data, "prioridade_3"))
  }

  /** The text a priority answer contributes when it is a string or absent. */
  function PriorityText(data: Payload, key: string): string
    requires key in data ==> data[key].JString?
  {
    if key in data then data[key].s else ""
  }

  /** With string or absent priorities, the cell is the three texts in the fixed frame. */
  lemma PrioritiesOfText(data: Payload)
    requires forall k :: k in PriorityKeys && k in data ==> data[k].JString?
    ensures PrioritiesCell(data)
      == "1. " + PriorityText(data, "prioridade_1") + " | 2. " + PriorityText(data, "prioridade_2")
         + " | 3. " + PriorityText(data, "prioridade_3")
  {
    assert "prioridade_1" in PriorityKeys && "prioridade_2" in PriorityKeys && "prioridade_3" in PriorityKeys;
  }

  /** A row made of the school cells, answer columns, the priorities cell and more answer columns. */
  function RowCells(data: Payload, school: School, section: seq<string>, closing: seq<string>): seq<JValue> {
    SchoolCells(school) + ValCells(data, section) + [JString(PrioritiesCell(data))] + ValCells(data, closing)
  }

  /** The row appended for a payload and a school. */
  function BuildRow(data: Payload, school: School): seq<JValue> {
    RowCells(data, school, SectionKeys, ClosingKeys)
  }

  lemma RowCellsLayout(data: Payload, school: School, section: seq<string>, closing: seq<string>)
    ensures var row := RowCells(data, school, section, closing);
      |row| == 14 + |section| + |closing|
      && row[..13] == SchoolCells(school)
      && (forall i :: 0 <= i < |section| ==> row[13 + i] == ValueOf(data, section[i]))
      && row[13 + |section|] == JString(PrioritiesCell(data))
      && (forall i :: 0 <= i < |closing| ==> row[14 + |section| + i] == ValueOf(data, closing[i]))
  {
    var row := RowCells(data, school, section, closing);
    assert row[..13] == SchoolCells(school);
  }

  /** The row's layout: its width is fixed and each column holds one known thing. */
  lemma RowLayout(data: Payload, school: School)
    ensures |BuildRow(data, school)| == RowWidth
    ensures BuildRow(data, school)[..13] == SchoolCells(school)
    ensures forall i :: 0 <= i < |SectionKeys| ==> BuildRow(data, school)[13 + i] == ValueOf(data, SectionKeys[i])
    ensures BuildRow(data, school)[13 + |SectionKeys|] == JString(PrioritiesCell(data))
    ensures forall i :: 0 <= i < |ClosingKeys| ==>
      BuildRow(data, school)[14 + |SectionKeys| + i] == ValueOf(data, ClosingKeys[i])
  {
    RowCellsLayout(data, school, SectionKeys, ClosingKeys);
  }

  lemma ValCellsAgree(d1: Payload, d2: Payload, keys: seq<string>)
    requires forall k :: k in keys ==> AgreeOn(d1, d2, k)
    ensures ValCells(d1, keys) == ValCells(d2, keys)
  {
    assert forall i :: 0 <= i < |keys| ==> keys[i] in keys;
  }

  /** Payloads that agree on `k`. */
  predicate AgreeOn(d1: Payload, d2: Payload, k: string) {
    (k in d1 <==> k in d2) && (k in d1 ==> d1[k] == d2[k])
  }

  lemma RowCellsAgree(d1: Payload, d2: Payload, school: School, section: seq<string>, closing: seq<string>)
    requires forall k :: k in section + PriorityKeys + closing ==> AgreeOn(d1, d2, k)
    ensures RowCells(d1, school, section, closing) == RowCells(d2, school, section, closing)
  {
    ValCellsAgree(d1, d2, section);
    ValCellsAgree(d1, d2, closing);
    assert AgreeOn(d1, d2, "prioridade_1") && AgreeOn(d1, d2, "prioridade_2") && AgreeOn(d1, d2, "prioridade_3") by {
      assert PriorityKeys[0] in section + PriorityKeys + closing;
      assert PriorityKeys[1] in section + PriorityKeys + closing;
      assert PriorityKeys[2] in section + PriorityKeys + closing;
    }
  }

  /** Payloads that agree on the keys the row reads give the same row. */
  lemma RowReadsOnlyRowKeys(d1: Payload, d2: Payload, school: School)
    requires forall k :: k in RowKeys ==> AgreeOn(d1, d2, k)
    ensures BuildRow(d1, school) == BuildRow(d2, school)
  {
    RowCellsAgree(d1, d2, school, SectionKeys, ClosingKeys);
  }

  /** The cells `val` yields for the keys, in order. */
  method ValColumns(data: Payload, keys: seq<string>) returns (cells: seq<JValue>)
    ensures cells == ValCells(data, keys)
  {
    cells := [];
    var i := 0;
    while i < |keys|
      invariant 0 <= i <= |keys|
      invariant cells == ValCells(data, keys[..i])
    {
      var cell := Val(data, keys[i]);
      assert ValCells(data, keys[..i + 1]) == ValCells(data, keys[..i]) + [cell];
      cells := cells + [cell];
      i := i + 1;
    }
    assert keys[..i] == keys;
  }

  /** The row literal of `AppendCenso`, every answer column read through `val`. */
  method MakeRow(data: Payload, school: School) returns (row: seq<JValue>)
    ensures row == BuildRow(data, school)
  {
    var section := ValColumns(data, SectionKeys);
    var p1 := Val(data, "prioridade_1");
    var p2 := Val(data, "prioridade_2");
    var p3 := Val(data, "prioridade_3");
    var closing := ValColumns(data, ClosingKeys);
    row := SchoolCells(school) + section
      + [JString("1. " + Render(p1) + " | 2. " + Render(p2) + " | 3. " + Render(p3))] + closing;
  }

  // ---------------------------------------------------------------------
  // The service

  class SheetsService {
    var censusSpreadsheetID: string
    var locationsSpreadsheetID: string
    /** The rows of the census sheet, as appended. */
    var censusSheet: seq<seq<JValue>>

    constructor(censusId: string, locationsId: string, sheet: seq<seq<JValue>>)
      ensures censusSpreadsheetID == censusId && locationsSpreadsheetID == locationsId
      ensures censusSheet == sheet
    {
      censusSpreadsheetID := censusId;
      locationsSpreadsheetID := locationsId;
      censusSheet := sheet;
    }

    /**
     * `GetLocations`: `fetched` is the outcome of reading the sectors sheet
     * (`None` when the read fails).
     */
    method GetLocations(fetched: Option<seq<Row>>) returns (r: Result<Locations, SheetsError>)
      ensures locationsSpreadsheetID == "" ==> r == Err(LocationsIdMissing)
      ensures locationsSpreadsheetID != "" && fetched.None? ==> r == Err(LocationsReadFailed)
      ensures locationsSpreadsheetID != "" && fetched.Some? ==> r == Ok(LocationsOf(fetched.value))
    {
      if locationsSpreadsheetID == "" {
        return Err(LocationsIdMissing);
      }
      if fetched.None? {
        return Err(LocationsReadFailed);
      }
      var rows := fetched.value;
      var mapping: Locations := map[];
      var i := 0;
      while i < |rows|
        invariant 0 <= i <= |rows|
        invariant mapping == Gather(rows[..i])
      {
        var row := rows[i];
        if |row| > 3 {
          var dre := TrimSpace(row[0]);
          var escola := TrimSpace(row[2]);
          var municipio := TrimSpace(row[3]);
          if dre != "" && municipio != "" && escola != "" {
            var schools := Schools(mapping, dre, municipio);
            if dre !in mapping {
              mapping := mapping[dre := map[]];
            }
            var found := false;
            var j := 0;
            while j < |schools|
              invariant 0 <= j <= |schools|
              invariant !found ==> escola !in schools[..j]
              invariant found ==> escola in schools
            {
              if schools[j] == escola {
                found := true;
                break;
              }
              j := j + 1;
            }
            if !found {
              assert schools[..j] == schools;
              mapping := mapping[dre := mapping[dre][municipio := schools + [escola]]];
            }
          }
        }
        assert rows[..i + 1][..i] == rows[..i];
        i := i + 1;
      }
      assert rows[..i] == rows;
      // sort every list, region by region
      var sorted: Locations := map[];
      var pending := mapping.Keys;
      while pending != {}
        invariant pending <= mapping.Keys
        invariant sorted.Keys == mapping.Keys - pending
        invariant forall d :: d in sorted ==> sorted[d] == SortCities(mapping[d])
        decreases |pending|
      {
        var d :| d in pending;
        sorted := sorted[d := SortCities(mapping[d])];
        pending := pending - {d};
      }
      assert sorted == SortLists(mapping);
      return Ok(sorted);
    }

    /**
     * `AppendCenso`: `censusData` is the raw JSON of the answers and
     * `appendSucceeds` the outcome of the append call.
     */
    method AppendCenso(censusData: string, school: School, appendSucceeds: bool)
      returns (r: Result<(), SheetsError>)
      modifies this
      ensures censusSpreadsheetID == old(censusSpreadsheetID)
      ensures locationsSpreadsheetID == old(locationsSpreadsheetID)
      ensures censusSpreadsheetID == "" ==> r == Err(CensusIdMissing)
      ensures censusSpreadsheetID != "" && DecodePayload(censusData).None? ==> r == Err(JsonDecodeFailed)
      ensures censusSpreadsheetID != "" && DecodePayload(censusData).Some? && !appendSucceeds ==>
                r == Err(CensusWriteFailed)
      ensures r.Ok? <==> censusSpreadsheetID != "" && DecodePayload(censusData).Some? && appendSucceeds
      ensures r.Ok? ==> censusSheet == old(censusSheet) + [BuildRow(DecodePayload(censusData).value, school)]
      ensures r.Err? ==> censusSheet == old(censusSheet)
    {
      if censusSpreadsheetID == "" {
        return Err(CensusIdMissing);
      }
      var decoded := DecodePayload(censusData);
      if decoded.None? {
        return Err(JsonDecodeFailed);
      }
      var row := MakeRow(decoded.value, school);
      if !appendSucceeds {
        return Err(CensusWriteFailed);
      }
      censusSheet := censusSheet + [row];
      return Ok(());
    }
  }
}
