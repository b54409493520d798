/**
 * `useCensusPersistence`: how a wizard step fills its form when it mounts,
 * from three layers — the step's default values, what the server returns
 * for the school, and the draft kept in `localStorage` — and how the step
 * saves and discards that draft.  The fetch is replaced by its outcome,
 * passed in; form records are maps from field name to JSON value.
 */
module Persistence {
  import opened Wrappers
  import opened Text
  import opened JsonValues
  import opened JsonText
  import JsonRoundTrip
  import opened Storage

  /** A form record: field name to value (property order is not modelled). */
  type Record = map<string, JValue>

  /** The `localStorage` key of a step's draft: `censo_draft_<stepKey>_v1`. */
  function DraftKey(stepKey: string): (k: string)
    ensures |k| == |stepKey| + 15 && k[..12] == "censo_draft_" && k[|k| - 3..] == "_v1"
  {
    "censo_draft_" + stepKey + "_v1"
  }

  /** Different steps keep their drafts under different keys. */
  lemma DraftKeyInjective(a: string, b: string)
    requires DraftKey(a) == DraftKey(b)
    ensures a == b
  {
    assert a == DraftKey(a)[12..|a| + 12];
    assert b == DraftKey(b)[12..|b| + 12];
  }

  /** `!schoolId` is false: there is a school id and it is not 0. */
  predicate HasSchool(schoolId: Option<int>) {
    schoolId.Some? && schoolId.value != 0
  }

  const SchoolsUrl: string := "http://localhost:8000/v1/schools?id="
  const CensusUrl: string := "http://localhost:8000/v1/census?school_id="

  /**
   * The URL the hook fetches: the school record for the endpoint
   * `"schools"`, the census answers for any other endpoint.
   */
  function FetchUrl(endpoint: string, schoolId: int): (url: string)
    ensures endpoint == "schools" ==> url == SchoolsUrl + IntText(schoolId)
    ensures endpoint != "schools" ==> url == CensusUrl + IntText(schoolId)
  {
    (if endpoint == "schools" then SchoolsUrl else CensusUrl) + IntText(schoolId)
  }

  /** The two URLs never coincide, so the endpoint decides what is fetched. */
  lemma FetchUrlsDiffer(e1: string, e2: string, id1: int, id2: int)
    requires (e1 == "schools") != (e2 == "schools")
    ensures FetchUrl(e1, id1) != FetchUrl(e2, id2)
  {
    var u1 := if e1 == "schools" then SchoolsUrl else CensusUrl;
    var u2 := if e2 == "schools" then SchoolsUrl else CensusUrl;
    assert FetchUrl(e1, id1)[25] == u1[25] && FetchUrl(e2, id2)[25] == u2[25];
  }

  /** What `fetch(url)` gave: a thrown error, or a response with its status and body text. */
  datatype FetchOutcome = NetworkError | Response(ok: bool, body: string)

  lemma NatTextKeys()
    ensures forall i: nat, j: nat :: NatText(i) == NatText(j) ==> i == j
  {
    forall i: nat, j: nat | NatText(i) == NatText(j) ensures i == j {
      NatTextInjective(i, j);
    }
  }

  /** The properties `{...v}` copies: index keys for arrays and strings, none for scalars. */
  function OwnProperties(v: JValue): (r: Record)
    ensures v.JObject? ==> r == ToMap(v.members)
    ensures v.JNull? || v.JBool? || v.JNumber? ==> r == map[]
  {
    match v
    case JObject(ms) => ToMap(ms)
    case JArray(items) =>
      NatTextKeys();
      map i | 0 <= i < |items| :: NatText(i) := items[i]
    case JString(s) =>
      NatTextKeys();
      map i | 0 <= i < |s| :: NatText(i) := JString([s[i]])
    case _ => map[]
  }

  /**
   * `json.data` of the parsed body: present only when the body parses to an
   * object with a `data` member (the last one wins).  Reading `data` of a
   * parsed `null` throws, which the hook catches, so that case has none too.
   */
  function DataField(body: string): (r: Option<JValue>)
    ensures r.Some? ==> Parse(body).Some? && Parse(body).value.JObject?
  {
    match Parse(body)
    case Some(JObject(ms)) =>
      var m := ToMap(ms);
      if "data" in m then Some(m["data"]) else None
    case _ => None
  }

  /** The server layer: `json.data` of an OK response when it is truthy, `{}` otherwise. */
  function ServerLayer(outcome: FetchOutcome): (r: Record)
    ensures outcome.NetworkError? || !outcome.ok ==> r == map[]
    ensures (outcome.Response? && outcome.ok &&
             (DataField(outcome.body).None? || !Truthy(DataField(outcome.body).value)))
            ==> r == map[]
    ensures (outcome.Response? && outcome.ok &&
             DataField(outcome.body).Some? && Truthy(DataField(outcome.body).value))
            ==> r == OwnProperties(DataField(outcome.body).value)
  {
    match outcome
    case NetworkError => map[]
    case Response(ok, body) =>
      if ok then
        match DataField(body)
        case Some(d) => if Truthy(d) then OwnProperties(d) else map[]
        case None => map[]
      else map[]
  }

  /** The local layer: the stored draft parsed, `{}` when nothing (or `""`) is stored or it does not parse. */
  function LocalLayer(stored: Option<string>): (r: Record)
    ensures stored.None? || stored == Some("") ==> r == map[]
    ensures stored.Some? && stored.value != "" && Parse(stored.value).None? ==> r == map[]
    ensures (stored.Some? && stored.value != "" && Parse(stored.value).Some?)
            ==> r == OwnProperties(Parse(stored.value).value)
  {
    match stored
    case None => map[]
    case Some(text) =>
      if text == "" then map[]
      else
        match Parse(text)
        case Some(v) => OwnProperties(v)
        case None => map[]
  }

  /**
   * `{...defaults, ...server, ...local}`: every key of any layer, each with
   * its value from the latest layer that has it.
   */
  function Merge(defaults: Record, server: Record, local: Record): (r: Record)
    ensures forall k :: k in r <==> k in defaults || k in server || k in local
    ensures forall k :: k in local ==> r[k] == local[k]
    ensures forall k :: k !in local && k in server ==> r[k] == server[k]
    ensures forall k :: k !in local && k !in server && k in defaults ==> r[k] == defaults[k]
  {
    defaults + server + local
  }

  /** A server body `{"data": {...}}` gives exactly that object's members as the server layer. */
  lemma ServerLayerOfData(members: seq<Member>)
    ensures ServerLayer(Response(true, Serialize(JObject([Member("data", JObject(members))]))))
            == ToMap(members)
  {
    var body := JObject([Member("data", JObject(members))]);
    JsonRoundTrip.ParseSerialize(body);
    assert ToMap(body.members) == map["data" := JObject(members)] by {
      assert body.members[..0] == [];
    }
  }

  /** A saved draft is read back as the same record: saving then loading makes the draft's keys win. */
  lemma LocalLayerOfDraft(members: seq<Member>)
    ensures LocalLayer(Some(Serialize(JObject(members)))) == ToMap(members)
  {
    JsonRoundTrip.ParseSerialize(JObject(members));
    JsonRoundTrip.SerializeStart(JObject(members));
  }

  /** The state of one wizard step's use of the hook. */
  class CensusPersistence {
    const schoolId: Option<int>
    const stepKey: string
    const endpoint: string
    const defaults: Record
    const storage: LocalStorage
    var isLoading: bool
    /** The record last passed to the form's `reset`, if any. */
    var formValues: Option<Record>

    /** The hook's first render: `isLoading` starts out true and the form is untouched. */
    constructor(schoolId: Option<int>, stepKey: string, endpoint: string, defaults: Record, storage: LocalStorage)
      ensures this.schoolId == schoolId && this.stepKey == stepKey && this.endpoint == endpoint
      ensures this.defaults == defaults && this.storage == storage
      ensures isLoading && formValues == None
    {
      this.schoolId := schoolId;
      this.stepKey := stepKey;
      this.endpoint := endpoint;
      this.defaults := defaults;
      this.storage := storage;
      isLoading := true;
      formValues := None;
    }

    /**
     * The effect that loads the step: without a school nothing is fetched
     * and the form is left alone; otherwise the URL for the endpoint is
     * fetched and the form is reset to the three layers merged.  Either way
     * loading ends with `isLoading` false.
     */
    method Load(outcome: FetchOutcome) returns (fetched: Option<string>)
      modifies this
      ensures !isLoading
      ensures !HasSchool(schoolId) ==> fetched == None && formValues == old(formValues)
      ensures HasSchool(schoolId) ==> fetched == Some(FetchUrl(endpoint, schoolId.value))
      ensures HasSchool(schoolId) ==>
        formValues == Some(Merge(defaults, ServerLayer(outcome), LocalLayer(storage.Get(DraftKey(stepKey)))))
    {
      if !HasSchool(schoolId) {
        isLoading := false;
        return None;
      }
      isLoading := true;
      var server: Record := map[];
      var url := FetchUrl(endpoint, schoolId.value);
      if outcome.Response? && outcome.ok {
        var data := DataField(outcome.body);
        if data.Some? && Truthy(data.value) {
          server := OwnProperties(data.value);
        }
      }
      var local: Record := map[];
      var stored := storage.Get(DraftKey(stepKey));
      if stored.Some? && stored.value != "" {
        var parsed := Parse(stored.value);
        if parsed.Some? {
          local := OwnProperties(parsed.value);
        }
      }
      formValues := Some(Merge(defaults, server, local));
      isLoading := false;
      return Some(url);
    }

    /** `saveLocalDraft(data)`: stores `JSON.stringify(data)` under the step's key only. */
    method SaveLocalDraft(data: JValue)
      modifies storage
      ensures storage.items == old(storage.items)[DraftKey(stepKey) := Serialize(data)]
    {
      storage.SetItem(DraftKey(stepKey), Serialize(data));
    }

    /** `clearLocalDraft()`: removes the step's key only. */
    method ClearLocalDraft()
      modifies storage
      ensures storage.items == old(storage.items) - {DraftKey(stepKey)}
    {
      storage.RemoveItem(DraftKey(stepKey));
    }
  }

  /**
   * After a step saves a draft, its next load merges that draft last, and a
   * draft saved by another step is not disturbed.
   */
  lemma SaveThenLoad(items: map<string, string>, stepKey: string, other: string, members: seq<Member>,
                     defaults: Record, server: Record)
    requires other != stepKey
    ensures var after := items[DraftKey(stepKey) := Serialize(JObject(members))];
      LocalLayer(Some(after[DraftKey(stepKey)])) == ToMap(members)
      && Merge(defaults, server, LocalLayer(Some(after[DraftKey(stepKey)])))
         == Merge(defaults, server, ToMap(members))
      && (DraftKey(other) in after <==> DraftKey(other) in items)
      && (DraftKey(other) in items ==> after[DraftKey(other)] == items[DraftKey(other)])
  {
    LocalLayerOfDraft(members);
    if DraftKey(other) == DraftKey(stepKey) { DraftKeyInjective(other, stepKey); }
  }

  /** After a step clears its draft, its next load merges only the defaults and the server layer. */
  lemma ClearThenLoad(items: map<string, string>, stepKey: string, defaults: Record, server: Record)
    ensures var after := items - {DraftKey(stepKey)};
      var stored := if DraftKey(stepKey) in after then Some(after[DraftKey(stepKey)]) else None;
      Merge(defaults, server, LocalLayer(stored)) == defaults + server
  {
  }
}
